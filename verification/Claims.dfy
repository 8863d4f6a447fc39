/** What a client is told about its instances: `render_composition`, `ServiceInstance.render` and
    `InstanceAlias.to_url`. */
module Claims {
  import opened Prelude
  import opened Rows
  import opened Rendering
  import opened Invariants
  import opened Lifecycle
  import Traces

  /** The request the claim is rendered for. */
  datatype Linking = Linking(host: string, port: Option<int>, secure: bool)

  datatype AliasClaim = AliasClaim(id: nat, ssl: bool, host: string, port: Option<int>, path: Option<string>,
                                   challenge: string)

  /** Aliases come in no particular order, each with its id. */
  datatype InstanceClaim = InstanceClaim(service: string, identifier: nat, aliases: set<AliasClaim>,
                                         key: Option<string>)

  datatype Claim = Claim(clientId: string, token: string, scopes: set<string>,
                         instances: map<string, InstanceClaim>, statuses: map<string, Status>)

  /** A relative alias lives at the request's host, and at its port when it names none; an absolute
      alias must name a host. */
  function ToUrl(id: nat, a: Alias, l: Linking): Result<AliasClaim, Error> {
    match a.kind
    case Relative =>
      Ok(AliasClaim(id, l.secure, l.host, if a.port.Some? && a.port.value != 0 then a.port
                    else l.port, a.path, a.challenge))
    case Absolute =>
      if a.host.None? then Err(Unrenderable)
      else Ok(AliasClaim(id, a.ssl, a.host.value, a.port, a.path, a.challenge))
  }

  function AliasesOf(t: Tables, i: nat): set<nat> {
    set a | a in t.aliases && t.aliases[a].instance == i
  }

  /** An instance renders exactly when it is there with its service and each of its aliases has a host to point to. */
  ghost predicate Renderable(t: Tables, i: nat) {
    && i in t.instances && ServiceOf(t, t.instances[i]).Some?
    && forall a :: a in AliasesOf(t, i) ==> t.aliases[a].kind == Relative || t.aliases[a].host.Some?
  }

  ghost function UrlsOf(t: Tables, i: nat, l: Linking): set<AliasClaim> {
    set a | a in AliasesOf(t, i) && ToUrl(a, t.aliases[a], l).Ok? :: ToUrl(a, t.aliases[a], l).value
  }

  ghost function InstanceClaimOf(t: Tables, i: nat, l: Linking): InstanceClaim
    requires Renderable(t, i)
  {
    var row := t.instances[i];
    InstanceClaim(ServiceOf(t, row).value, i, UrlsOf(t, i, l), if Truthy(row.publicKey) then row.publicKey else None)
  }

  ghost predicate ClaimOf(t: Tables, c: nat, l: Linking, claim: Claim)
    requires c in t.clients
  {
    var row, mapped := t.clients[c], MappingsOf(t, c);
    && claim.token == row.token && claim.statuses == row.statuses
    && (row.oauthClient in t.oauthClients ==> claim.clientId == t.oauthClients[row.oauthClient].clientId)
    && claim.scopes == (set s | s in row.scopes && s in t.scopes :: t.scopes[s].identifier)
    && claim.instances.Keys == mapped.Keys
    && forall k :: k in mapped ==> Renderable(t, mapped[k]) && claim.instances[k] == InstanceClaimOf(t, mapped[k], l)
  }

  /** In every state that registrations, redeems and device codes reach, with the keys of each manifest
      distinct, the keys a claim lists instances for are the keys it reports as granted. */
  lemma {:induction false} ClaimListsGrantedKeys(w: Crypto, t: Tables, es: seq<Timed>, c: nat, l: Linking, claim: Claim)
    requires Sound(t) && StatusesAgree(t) && Traces.AllDistinct(es) && DistinctCodes(t.codes)
    requires c in Run(w, t, es).clients && ClaimOf(Run(w, t, es), c, l, claim)
    ensures claim.instances.Keys == set k | k in claim.statuses && claim.statuses[k] == Status.Granted
  {
    hide Run, Sound, StatusesAgree, Traces.AllDistinct, DistinctCodes, Renderable, UrlsOf, MappingsOf;
    Traces.GrantedIsMapped(w, t, es, c);
  }

  // ---- Said of the rows -------------------------------------------------------------------------------------------

  /** Where an alias points: a relative one to the request's host, over the request's scheme and, without a port
      of its own, at the request's port; an absolute one to its own host, port and scheme. */
  predicate PointsTo(a: nat, row: Alias, l: Linking, url: AliasClaim) {
    && url.id == a && url.path == row.path && url.challenge == row.challenge
    && (row.kind == Relative ==>
          && url.host == l.host && url.ssl == l.secure
          && url.port == (if row.port.None? || row.port.value == 0 then l.port else row.port))
    && (row.kind == Absolute ==> row.host == Some(url.host) && url.port == row.port && url.ssl == row.ssl)
  }

  predicate IsAliasOf(t: Tables, a: nat, i: nat) {
    a in t.aliases && t.aliases[a].instance == i
  }

  /** The instance's service, its key if it has one, and a url for exactly each of its aliases. */
  ghost predicate RenderedAs(t: Tables, i: nat, l: Linking, x: InstanceClaim) {
    && i in t.instances && x.identifier == i && t.instances[i].release in t.serviceReleases
    && t.serviceReleases[t.instances[i].release].service in t.services
    && x.service == t.services[t.serviceReleases[t.instances[i].release].service].identifier
    && x.key == (if t.instances[i].publicKey == Some("") then None else t.instances[i].publicKey)
    && (forall url :: url in x.aliases ==> IsAliasOf(t, url.id, i) && PointsTo(url.id, t.aliases[url.id], l, url))
    && (forall a: nat :: IsAliasOf(t, a, i) ==> exists url :: url in x.aliases && url.id == a)
  }

  /** The client's token, statuses and scopes by name, and an instance for exactly each of its mappings. */
  ghost predicate ClaimedAs(t: Tables, c: nat, l: Linking, claim: Claim) {
    && c in t.clients && claim.token == t.clients[c].token && claim.statuses == t.clients[c].statuses
    && (t.clients[c].oauthClient in t.oauthClients ==>
          claim.clientId == t.oauthClients[t.clients[c].oauthClient].clientId)
    && (forall name :: name in claim.scopes <==>
          exists s :: s in t.clients[c].scopes && s in t.scopes && t.scopes[s].identifier == name)
    && (forall k :: k in claim.instances <==> (c, k) in t.mappings)
    && (forall k :: k in claim.instances ==> RenderedAs(t, t.mappings[(c, k)], l, claim.instances[k]))
  }

  /** What an instance needs to be rendered. */
  ghost predicate CanRender(t: Tables, i: nat) {
    && i in t.instances && t.instances[i].release in t.serviceReleases
    && t.serviceReleases[t.instances[i].release].service in t.services
    && forall a: nat :: IsAliasOf(t, a, i) && t.aliases[a].kind == Absolute ==> t.aliases[a].host.Some?
  }

  lemma UrlPoints(a: nat, row: Alias, l: Linking)
    ensures ToUrl(a, row, l).Err? <==> row.kind == Absolute && row.host.None?
    ensures ToUrl(a, row, l).Ok? ==> PointsTo(a, row, l, ToUrl(a, row, l).value)
  {
  }

  lemma CanRenderExactly(t: Tables, i: nat)
    ensures Renderable(t, i) <==> CanRender(t, i)
  {
    forall a: nat ensures IsAliasOf(t, a, i) <==> a in AliasesOf(t, i) {
    }
  }

  lemma InstanceRendered(t: Tables, i: nat, l: Linking)
    requires Renderable(t, i)
    ensures RenderedAs(t, i, l, InstanceClaimOf(t, i, l))
  {
    hide ToUrl, PointsTo;
    var x := InstanceClaimOf(t, i, l);
    forall a: nat | IsAliasOf(t, a, i) ensures exists url :: url in x.aliases && url.id == a {
      UrlPoints(a, t.aliases[a], l);
      UrlId(a, t.aliases[a], l);
      assert ToUrl(a, t.aliases[a], l).value in UrlsOf(t, i, l);
    }
    forall url | url in x.aliases ensures IsAliasOf(t, url.id, i) && PointsTo(url.id, t.aliases[url.id], l, url) {
      var a :| a in AliasesOf(t, i) && ToUrl(a, t.aliases[a], l) == Ok(url);
      UrlPoints(a, t.aliases[a], l);
      UrlId(a, t.aliases[a], l);
    }
  }

  lemma UrlId(a: nat, row: Alias, l: Linking)
    ensures ToUrl(a, row, l).Ok? ==> ToUrl(a, row, l).value.id == a
  {
  }

  /** A claim read row by row. */
  lemma ClaimReads(t: Tables, c: nat, l: Linking, claim: Claim)
    requires c in t.clients && ClaimOf(t, c, l, claim)
    ensures ClaimedAs(t, c, l, claim)
  {
    hide InstanceClaimOf, RenderedAs, Renderable;
    var mapped := MappingsOf(t, c);
    forall k | k in claim.instances ensures RenderedAs(t, t.mappings[(c, k)], l, claim.instances[k]) {
      assert k in mapped;
      InstanceRendered(t, mapped[k], l);
    }
  }
}
