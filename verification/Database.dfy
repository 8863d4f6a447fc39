/** The services as they run: each method works on the tables in place, and a call that raises puts
    them back (`transaction.atomic`). */
module DatabaseServices {
  import opened Prelude
  import opened Rows
  import Rendering
  import Tokens
  import Clients
  import DeviceCodes
  import Claims
  import Invariants

  /** A call that is given its specification's outcome; what it leaves behind when it raises is rolled
      back by the transaction it runs in. */
  ghost predicate Follows(after: Tables, r: Result<nat, Error>, spec: Result<(Tables, nat), Error>) {
    match spec
    case Ok((u, id)) => r == Ok(id) && after == u
    case Err(e) => r == Err(e)
  }

  /** A transaction: all of its specification's effect, or an exception and none. */
  ghost predicate Atomic(before: Tables, after: Tables, r: Result<nat, Error>, spec: Result<(Tables, nat), Error>) {
    Follows(after, r, spec) && (r.Err? ==> after == before)
  }

  class Database {
    const w: Crypto
    var tables: Tables

    constructor (w: Crypto, tables: Tables)
      ensures this.w == w && this.tables == tables
    {
      this.w := w;
      this.tables := tables;
    }

    /** Deletes client `c`'s mappings one by one. */
    method DeleteMappings(c: nat)
      modifies this
      ensures tables == old(tables).(mappings := Rendering.Remapped(old(tables).mappings, c, map[]))
    {
      var rest := set p | p in tables.mappings && p.0 == c;
      while rest != {}
        invariant tables == old(tables).(mappings := tables.mappings)
        invariant forall p :: p in rest <==> p in tables.mappings && p.0 == c
        invariant forall p :: p in tables.mappings ==>
                    p in old(tables).mappings && tables.mappings[p] == old(tables).mappings[p]
        invariant forall p :: p in old(tables).mappings && p.0 != c ==> p in tables.mappings
        decreases rest
      {
        var p :| p in rest;
        tables := tables.(mappings := tables.mappings - {p});
        rest := rest - {p};
      }
      assert tables.mappings == Rendering.Remapped(old(tables).mappings, c, map[]);
    }

    /** One requirement's instance is looked up and mapped by `get_or_create`, which fails where the
        key maps to another instance. */
    method MapRequirement(c: nat, req: Requirement, user: nat) returns (ok: bool)
      requires c in tables.clients
      modifies this
      ensures var t, instance := old(tables),
              Rendering.FindInstance(old(tables), req, user, old(tables).clients[c].composition);
              && (ok <==> instance.Some? && ((c, req.key) in t.mappings ==> t.mappings[(c, req.key)] == instance.value))
              && tables == if ok then t.(mappings := t.mappings[(c, req.key) := instance.value]) else t
    {
      var instance := Rendering.FindInstance(tables, req, user, tables.clients[c].composition);
      if instance.None? {
        return false;
      }
      if (c, req.key) in tables.mappings {
        ok := tables.mappings[(c, req.key)] == instance.value;
        assert ok ==> tables.mappings[(c, req.key) := instance.value] == tables.mappings;
      } else {
        tables := tables.(mappings := tables.mappings[(c, req.key) := instance.value]);
        ok := true;
      }
    }

    /** `auto_compose`: wipe, rebuild, record the statuses. */
    method AutoCompose(c: nat, reqs: seq<Requirement>, user: nat, declined: set<string>) returns (r: Result<(), Error>)
      requires c in tables.clients
      modifies this
      ensures match Rendering.AutoCompose(w, old(tables), c, reqs, user, declined)
              case Ok(u) => r.Ok? && tables == u
              case Err(e) => r == Err(e) && tables == old(tables)
    {
      hide Rendering.Remapped, Rendering.FindInstance, Rendering.Compose, Rendering.ComposeOne;
      if reqs == [] {
        return Ok(());
      }
      var savepoint := tables;
      var statuses: map<string, Status> := map[];
      DeleteMappings(c);
      ghost var s := Rendering.Scene(savepoint, user, savepoint.clients[c].composition, declined);
      ghost var mapped: map<string, nat> := map[];
      ComposeNothing(s, reqs);
      for i := 0 to |reqs|
        invariant tables == savepoint.(mappings := Rendering.Remapped(savepoint.mappings, c, mapped))
        invariant Rendering.Compose(s, reqs[..i]) == Ok(Rendering.Composed(mapped, statuses))
      {
        var req := reqs[i];
        ComposeNext(s, reqs, i, c, mapped, statuses);
        if req.optional && req.key in declined {
          statuses := statuses[req.key := Denied];
        } else {
          var ok := MapRequirement(c, req, user);
          if ok {
            statuses := statuses[req.key := Status.Granted];
            mapped := mapped[req.key := Rendering.Instance(s, req).value];
          } else if req.optional {
            statuses := statuses[req.key := Unavailable];
          } else {
            tables := savepoint;
            Doomed(s, reqs, i + 1, NoInstance(req.service));
            return Err(NoInstance(req.service));
          }
        }
      }
      assert reqs[..|reqs|] == reqs;
      var row := tables.clients[c].(requirementsHash := Tokens.HashRequirements(w, reqs), statuses := statuses);
      tables := tables.(clients := tables.clients[c := row]);
      return Ok(());
    }

    // ---- Registering -------------------------------------------------------------------------------

    method GetOrCreateApp(identifier: string) returns (r: Result<nat, Error>)
      modifies this
      ensures Follows(tables, r, Clients.GetOrCreateApp(old(tables), identifier))
      ensures r.Ok? ==> r.value in tables.apps
    {
      match Get(Clients.AppRows(tables, identifier)) {
        case Found(a) =>
          return Ok(a);
        case Missing =>
          var a := tables.nextId;
          tables := tables.(nextId := a + 1, apps := tables.apps[a := App(identifier, None)]);
          return Ok(a);
        case Many =>
          return Err(Ambiguous);
      }
    }

    method UpsertRelease(app: nat, m: Manifest, logo: Option<string>) returns (r: Result<nat, Error>)
      modifies this
      ensures Follows(tables, r, Clients.UpsertRelease(old(tables), app, m, logo))
    {
      match Get(Clients.ReleaseRows(tables, app, m.version)) {
        case Found(id) =>
          var row := tables.releases[id];
          row := row.(logo := logo, scopes := m.scopes, requirements := m.requirements);
          tables := tables.(releases := tables.releases[id := row]);
          return Ok(id);
        case Missing =>
          var id := tables.nextId;
          tables := tables.(nextId := id + 1,
                            releases := tables.releases[id := Release(app, m.version, logo, m.scopes, m.requirements)]);
          return Ok(id);
        case Many =>
          return Err(Ambiguous);
      }
    }

    method GetOrCreateNode(m: Manifest, organization: nat) returns (r: Result<Option<nat>, Error>)
      modifies this
      ensures match Clients.GetOrCreateNode(w, old(tables), m, organization)
              case Ok((u, node)) => r == Ok(node) && tables == u
              case Err(e) => r == Err(e)
    {
      if !Truthy(m.nodeId) {
        return Ok(None);
      }
      var nodeId := w.deviceHash(m.nodeId.value, organization);
      match Get(Clients.DeviceRows(tables, organization, nodeId)) {
        case Found(d) =>
          return Ok(Some(d));
        case Missing =>
          var d := tables.nextId;
          tables := tables.(nextId := d + 1, devices := tables.devices[d := Device(organization, nodeId)]);
          return Ok(Some(d));
        case Many =>
          return Err(Ambiguous);
      }
    }

    /** Saves a client row, unless a unique constraint forbids it. */
    method SaveClient(c: nat, row: Client) returns (r: Result<(), Error>)
      modifies this
      ensures match Clients.SaveClient(old(tables), c, row)
              case Ok(u) => r == Ok(()) && tables == u
              case Err(e) => r == Err(e) && tables == old(tables)
    {
      if !Clients.ClientFits(tables, c, row) {
        return Err(Integrity);
      }
      tables := tables.(clients := tables.clients[c := row]);
      return Ok(());
    }

    /** `create_development_client`. */
    method CreateDevelopmentClient(g: Clients.Registration) returns (r: Result<nat, Error>)
      modifies this
      ensures Atomic(old(tables), tables, r, Clients.CreateDevelopmentClient(old(tables), g))
    {
      var savepoint := tables;
      r := RegisterDevelopmentClient(g);
      if r.Err? {
        tables := savepoint;
      }
    }

    method RegisterDevelopmentClient(g: Clients.Registration) returns (r: Result<nat, Error>)
      modifies this
      ensures Follows(tables, r, Clients.CreateDevelopmentClient(old(tables), g))
    {
      hide Clients.ClientFits, Clients.ConfigMembership, Clients.SaveClient, Clients.DevelopmentRows;
      match Get(g.Rows(tables)) {
        case Many =>
          return Err(Ambiguous);
        case Found(c) =>
          Invariants.SameKey(tables, g, c);
          var row := tables.clients[c];
          if row.token != g.config.token {
            row := row.(token := g.config.token);
          }
          row := row.(tenant := g.config.tenant);
          row := row.(node := g.node);
          row := row.(manifest := g.manifest);
          var membership :- Clients.ConfigMembership(tables, g.config);
          row := row.(membership := membership);
          row := row.(composition := g.composition);
          row := row.(role := g.config.role);
          var _ :- SaveClient(c, row);
          return Ok(c);
        case Missing =>
          var oauthClient := tables.nextId;
          tables := tables.(nextId := oauthClient + 1,
                            oauthClients := tables.oauthClients[oauthClient := OAuthClient(g.clientId)]);
          var membership :- Clients.ConfigMembership(tables, g.config);
          var c := tables.nextId;
          tables := tables.(nextId := c + 1);
          var _ :- SaveClient(c, Client(g.release, g.config.user, g.config.user, g.config.organization, membership,
                                        g.node, g.config.token,
                                        Development, g.config.role, oauthClient, "", g.composition, g.manifest, "",
                                            map[], {}));
          return Ok(c);
      }
    }

    /** The scopes a manifest names are added one by one; each must exist. */
    method AddManifestScopes(c: nat, organization: nat, names: seq<string>) returns (r: Result<(), Error>)
      requires c in tables.clients
      modifies this
      ensures match Clients.ScopeIds(old(tables), organization, names)
              case Ok(scopes) => r == Ok(()) && tables == Clients.AddScopes(old(tables), c, scopes)
              case Err(e) => r == Err(e)
    {
      ghost var t, got := tables, {};
      ScopesAdded(t, c, {}, {});
      for i := 0 to |names|
        invariant c in tables.clients && tables == Clients.AddScopes(t, c, got)
        invariant Clients.ScopeIds(t, organization, names[..i]) == Ok(got)
      {
        assert names[..i + 1][..i] == names[..i];
        assert Clients.ScopeRows(tables, names[i], organization) == Clients.ScopeRows(t, names[i], organization);
        match Get(Clients.ScopeRows(tables, names[i], organization)) {
          case Found(scope) =>
            var row := tables.clients[c];
            tables := tables.(clients := tables.clients[c := row.(scopes := row.scopes + {scope})]);
            ScopesAdded(t, c, got, {scope});
            got := got + {scope};
          case Missing =>
            Scopeless(t, organization, names, i + 1, NoScope);
            return Err(NoScope);
          case Many =>
            Scopeless(t, organization, names, i + 1, Ambiguous);
            return Err(Ambiguous);
        }
      }
      assert names[..|names|] == names;
      return Ok(());
    }

    /** `create_client`. */
    method CreateClient(o: Clients.Order) returns (r: Result<nat, Error>)
      modifies this
      ensures Atomic(old(tables), tables, r, Clients.CreateClient(w, old(tables), o))
      ensures r.Ok? ==> r.value in tables.clients
    {
      var savepoint := tables;
      r := RegisterClient(o);
      if r.Err? {
        tables := savepoint;
      }
    }

    method RegisterClient(o: Clients.Order) returns (r: Result<nat, Error>)
      modifies this
      ensures Follows(tables, r, Clients.CreateClient(w, old(tables), o))
    {
      hide Clients.GetOrCreateApp, Clients.UpsertRelease, Clients.GetOrCreateNode, Clients.CreateDevelopmentClient,
        Clients.ScopeIds, Rendering.AutoCompose, Clients.AddScopes;
      var logo :- Clients.FetchLogo(o.manifest, o.draw.download);
      var app :- GetOrCreateApp(o.manifest.identifier);
      if Truthy(logo) {
        tables := tables.(apps := tables.apps[app := tables.apps[app].(logo := logo)]);
      }
      var release :- UpsertRelease(app, o.manifest, logo);
      var node :- GetOrCreateNode(o.manifest, o.organization);
      if o.config.kind != Development {
        return Err(UnsupportedKind);
      }
      var c :- CreateDevelopmentClient(Clients.Registration(release, o.config, o.manifest, node, o.composition,
                                                            o.draw.clientId));
      var _ :- AutoCompose(c, o.manifest.requirements, o.user, o.declined);
      var _ :- AddManifestScopes(c, o.organization, o.manifest.scopes);
      return Ok(c);
    }

    // ---- Redeeming ---------------------------------------------------------------------------------

    /** `validate_redeem_token`. */
    method ValidateRedeemToken(k: nat, q: Clients.Request) returns (r: Result<nat, Error>)
      requires k in tables.tokens
      modifies this
      ensures Atomic(old(tables), tables, r, Clients.ValidateRedeemToken(w, old(tables), k, q))
      ensures r.Ok? ==> k in tables.tokens
    {
      var savepoint := tables;
      r := AttachClient(k, q);
      if r.Err? {
        tables := savepoint;
      }
    }

    method AttachClient(k: nat, q: Clients.Request) returns (r: Result<nat, Error>)
      requires k in tables.tokens
      modifies this
      ensures Follows(tables, r, Clients.ValidateRedeemToken(w, old(tables), k, q))
    {
      hide Clients.GetOrCreateNode, Clients.CreateClient, Clients.Reusable;
      var row, m := tables.tokens[k], q.manifest;
      if row.composition !in tables.compositions {
        return Err(Integrity);
      }
      var organization := tables.compositions[row.composition].organization;
      var node :- GetOrCreateNode(m, organization);
      var reusable := Clients.Reusable(tables, m.identifier, m.version, Development, node, row.user, organization,
                                       row.composition, "");
      var c;
      match First(reusable) {
        case Some(id) =>
          c := id;
        case None =>
          c :- CreateClient(Clients.RedeemOrder(row, organization, q));
      }
      if exists o :: o in tables.tokens && o != k && tables.tokens[o].client == Some(c) {
        return Err(Integrity);
      }
      tables := tables.(tokens := tables.tokens[k := row.(client := Some(c))]);
      return Ok(c);
    }

    /** `redeem_token`: the token's row is decided on under its lock; an expired one is deleted outside. */
    method RedeemToken(q: Clients.Request, now: int) returns (answer: Clients.Answer)
      modifies this
      ensures (tables, answer) == Clients.Redeem(w, old(tables), q, now)
    {
      hide Clients.RedeemLocked;
      match Get(Clients.TokenRows(tables, q.token)) {
        case Missing =>
          return Clients.UnknownToken;
        case Many =>
          return Clients.Failed(Ambiguous);
        case Found(k) =>
          assert k in Clients.TokenRows(tables, q.token);
          var expiresAt := tables.tokens[k].expiresAt;
          if !(expiresAt.Some? && expiresAt.value < now) {
            answer := RedeemLocked(k, q);
            return;
          }
      }
      tables := tables.(tokens := tables.tokens - Clients.TokenRows(tables, q.token));
      return Clients.Expired;
    }

    method RedeemLocked(k: nat, q: Clients.Request) returns (answer: Clients.Answer)
      requires k in tables.tokens
      modifies this
      ensures (tables, answer) == Clients.RedeemLocked(w, old(tables), k, q)
    {
      hide Clients.ValidateRedeemToken;
      var row, hash := tables.tokens[k], w.manifestHash(q.manifest);
      if row.client.Some? {
        if row.manifestHash.None? {
          tables := tables.(tokens := tables.tokens[k := row.(manifestHash := Some(hash))]);
          return Clients.Redeemed(row.client.value);
        }
        if row.manifestHash == Some(hash) {
          return Clients.Redeemed(row.client.value);
        }
        if !row.allowReredeem {
          return Clients.ManifestChanged;
        }
      }
      var r := ValidateRedeemToken(k, q);
      if r.Err? {
        return Clients.Failed(r.error);
      }
      tables := tables.(tokens := tables.tokens[k := tables.tokens[k].(manifestHash := Some(hash))]);
      return Clients.Redeemed(r.value);
    }

    // ---- Device codes ------------------------------------------------------------------------------

    /** `start_device_code`. */
    method StartDeviceCode(g: DeviceCodes.Staging, code: string, download: Clients.Download,
                           now: int) returns (r: Result<nat, Error>)
      modifies this
      ensures Atomic(old(tables), tables, r, DeviceCodes.StartDeviceCode(old(tables), g, code, download, now))
    {
      var _ :- Clients.FetchLogo(g.manifest, download);
      if DeviceCodes.CodeRows(tables, code) != {} {
        return Err(Integrity);
      }
      var k := tables.nextId;
      tables := tables.(nextId := k + 1,
                        codes := tables.codes[k := DeviceCode(code, g.manifest, g.kind, g.role, g.redirectUris,
                                                              now + g.seconds,
                                                              false, None)]);
      return Ok(k);
    }

    /** `validate_device_code`. */
    method ValidateDeviceCode(k: nat, organization: nat, a: DeviceCodes.Acceptance) returns (r: Result<nat, Error>)
      requires k in tables.codes
      modifies this
      ensures Atomic(old(tables), tables, r, DeviceCodes.ValidateDeviceCode(w, old(tables), k, organization, a))
    {
      var savepoint := tables;
      r := AcceptInto(k, organization, a);
      if r.Err? {
        tables := savepoint;
      }
    }

    method AcceptInto(k: nat, organization: nat, a: DeviceCodes.Acceptance) returns (r: Result<nat, Error>)
      requires k in tables.codes
      modifies this
      ensures Follows(tables, r, DeviceCodes.ValidateDeviceCode(w, old(tables), k, organization, a))
    {
      hide Clients.GetOrCreateNode, Clients.CreateClient, Clients.Reusable, Rendering.AutoCompose,
        DeviceCodes.RedirectText;
      var row := tables.codes[k];
      var m := row.manifest;
      var node :- GetOrCreateNode(m, organization);
      var reusable := Clients.Reusable(tables, m.identifier, m.version, row.kind, node, a.user, organization,
                                       a.composition,
                                       DeviceCodes.RedirectText(w, row.redirectUris));
      var c;
      match First(reusable) {
        case Some(id) =>
          c := id;
          var _ :- AutoCompose(c, m.requirements, a.user, a.declined);
        case None =>
          if row.kind != Development {
            return Err(UnsupportedKind);
          }
          var config := Clients.Config(Development, row.role, a.newToken, a.user, a.user, organization);
          c :- CreateClient(Clients.Order(m, config, a.user, organization, Some(a.composition), a.declined, a.draw));
      }
      tables := tables.(codes := tables.codes[k := row.(client := Some(c))]);
      return Ok(c);
    }

    /** The challenge view: `_poll_device_code` on the row of the code. */
    method PollDeviceCode(code: string, now: int) returns (p: DeviceCodes.Poll)
      modifies this
      ensures (tables, p) == DeviceCodes.Challenge(old(tables), code, now)
    {
      match Get(DeviceCodes.CodeRows(tables, code)) {
        case Missing =>
          return DeviceCodes.PollError;
        case Many =>
          return DeviceCodes.PollError;
        case Found(k) =>
          assert k in DeviceCodes.CodeRows(tables, code);
          var row := tables.codes[k];
          if now > row.expiresAt {
            tables := tables.(codes := tables.codes - {k});
            return DeviceCodes.PollExpired;
          }
          if row.denied {
            tables := tables.(codes := tables.codes - {k});
            return DeviceCodes.PollDenied;
          }
          if row.client.Some? && row.client.value in tables.clients {
            return DeviceCodes.PollGranted(tables.clients[row.client.value].token);
          }
          return DeviceCodes.PollPending;
      }
    }

    // ---- Rendering ---------------------------------------------------------------------------------

    /** `ServiceInstance.render`: the urls of all aliases, or an exception. */
    method RenderInstance(i: nat, l: Claims.Linking) returns (r: Result<Claims.InstanceClaim, Error>)
      ensures r.Ok? <==> Claims.Renderable(tables, i)
      ensures r.Ok? ==> r.value == Claims.InstanceClaimOf(tables, i, l)
    {
      if i !in tables.instances || Rendering.ServiceOf(tables, tables.instances[i]).None? {
        return Err(Unrenderable);
      }
      var row := tables.instances[i];
      var urls: set<Claims.AliasClaim>, rest := {}, Claims.AliasesOf(tables, i);
      while rest != {}
        invariant rest <= Claims.AliasesOf(tables, i)
        invariant forall a :: a in Claims.AliasesOf(tables, i) && a !in rest ==>
                  Claims.ToUrl(a, tables.aliases[a], l).Ok?
        invariant urls == set a | a in Claims.AliasesOf(tables, i) - rest && Claims.ToUrl(a, tables.aliases[a], l).Ok?
                              :: Claims.ToUrl(a, tables.aliases[a], l).value
        decreases rest
      {
        var a :| a in rest;
        var url := Claims.ToUrl(a, tables.aliases[a], l);
        if url.Err? {
          return Err(Unrenderable);
        }
        urls := urls + {url.value};
        rest := rest - {a};
      }
      var key := if Truthy(row.publicKey) then row.publicKey else None;
      return Ok(Claims.InstanceClaim(Rendering.ServiceOf(tables, row).value, i, urls, key));
    }

    /** `render_composition`: one entry for every mapping, or an exception. */
    method RenderComposition(c: nat, l: Claims.Linking) returns (r: Result<Claims.Claim, Error>)
      requires c in tables.clients && tables.clients[c].oauthClient in tables.oauthClients
      ensures r.Ok? <==> forall k :: k in Rendering.MappingsOf(tables, c) ==>
              Claims.Renderable(tables, Rendering.MappingsOf(tables, c)[k])
      ensures r.Ok? ==> Claims.ClaimOf(tables, c, l, r.value) && Claims.ClaimedAs(tables, c, l, r.value)
    {
      hide Claims.Renderable, Claims.UrlsOf, Rendering.MappingsOf;
      var row, mapped := tables.clients[c], Rendering.MappingsOf(tables, c);
      var instances: map<string, Claims.InstanceClaim>, rest := map[], mapped.Keys;
      while rest != {}
        invariant rest <= mapped.Keys && instances.Keys == mapped.Keys - rest
        invariant forall k :: k in instances ==>
                    Claims.Renderable(tables, mapped[k]) && instances[k] == Claims.InstanceClaimOf(tables, mapped[k], l)
        decreases rest
      {
        var k :| k in rest;
        var value := RenderInstance(mapped[k], l);
        if value.Err? {
          return Err(Unrenderable);
        }
        instances := instances[k := value.value];
        rest := rest - {k};
      }
      var scopes := set s | s in row.scopes && s in tables.scopes :: tables.scopes[s].identifier;
      var claim := Claims.Claim(tables.oauthClients[row.oauthClient].clientId, row.token, scopes, instances,
                                row.statuses);
      Claims.ClaimReads(tables, c, l, claim);
      return Ok(claim);
    }
  }

  lemma ScopesAdded(t: Tables, c: nat, a: set<nat>, b: set<nat>)
    requires c in t.clients
    ensures Clients.AddScopes(t, c, {}) == t
    ensures Clients.AddScopes(Clients.AddScopes(t, c, a), c, b) == Clients.AddScopes(t, c, a + b)
  {
    var scopes := t.clients[c].scopes;
    assert scopes + {} == scopes && (scopes + a) + b == scopes + (a + b);
    assert t.clients[c := t.clients[c]] == t.clients;
  }

  lemma {:induction false} Scopeless(t: Tables, organization: nat, names: seq<string>, n: nat, e: Error)
    requires n <= |names| && Clients.ScopeIds(t, organization, names[..n]) == Err(e)
    ensures Clients.ScopeIds(t, organization, names) == Err(e)
  {
    if n == |names| {
      assert names[..n] == names;
    } else {
      assert names[..|names| - 1][..n] == names[..n];
      Scopeless(t, organization, names[..|names| - 1], n, e);
    }
  }

  lemma ComposeNothing(s: Rendering.Scene, reqs: seq<Requirement>)
    ensures Rendering.Compose(s, reqs[..0]) == Ok(Rendering.Composed(map[], map[]))
  {
  }

  /** What one more requirement does, in terms of the tables the loop is working on. */
  lemma ComposeNext(s: Rendering.Scene, reqs: seq<Requirement>, i: nat, c: nat, mapped: map<string, nat>,
                    statuses: map<string, Status>)
    requires i < |reqs| && Rendering.Compose(s, reqs[..i]) == Ok(Rendering.Composed(mapped, statuses))
    ensures var req, instance := reqs[i], Rendering.Instance(s, reqs[i]);
            var t := s.t.(mappings := Rendering.Remapped(s.t.mappings, c, mapped));
            var next := Rendering.Compose(s, reqs[..i + 1]);
            && instance == Rendering.FindInstance(t, req, s.user, s.composition)
            && ((c, req.key) in t.mappings <==> req.key in mapped)
            && (req.key in mapped ==> t.mappings[(c, req.key)] == mapped[req.key])
            && (instance.Some? ==>
                  t.mappings[(c, req.key) := instance.value]
                      == Rendering.Remapped(s.t.mappings, c, mapped[req.key := instance.value]))
            && next == if Rendering.IsDeclined(s, req) then Ok(Rendering.Composed(mapped, statuses[req.key := Denied]))
                       else if instance.Some? && (req.key in mapped ==> mapped[req.key] == instance.value)
                       then Ok(Rendering.Composed(mapped[req.key := instance.value],
                                                  statuses[req.key := Status.Granted]))
                       else if req.optional then Ok(Rendering.Composed(mapped, statuses[req.key := Unavailable]))
                       else Err(NoInstance(req.service))
  {
    hide Rendering.Remapped, Rendering.FindInstance, Rendering.Eligible;
    var upTo := reqs[..i + 1];
    assert upTo[|upTo| - 1] == reqs[i] && upTo[..|upTo| - 1] == reqs[..i];
    assert Rendering.Compose(s, upTo) == Rendering.ComposeOne(s, reqs[i], Rendering.Composed(mapped, statuses));
    SameLookup(s, reqs[i], Rendering.Remapped(s.t.mappings, c, mapped));
    if Rendering.Instance(s, reqs[i]).Some? {
      RemappedInsert(s.t.mappings, c, mapped, reqs[i].key, Rendering.Instance(s, reqs[i]).value);
    }
  }

  /** The look-up does not see the mappings. */
  lemma SameLookup(s: Rendering.Scene, req: Requirement, mappings: map<(nat, string), nat>)
    ensures Rendering.FindInstance(s.t.(mappings := mappings), req, s.user, s.composition) == Rendering.Instance(s, req)
  {
    hide Rendering.Admits, First;
    assert Rendering.Eligible(s.t.(mappings := mappings), req.service, s.user, s.composition)
        == Rendering.Eligible(s.t, req.service, s.user, s.composition);
  }

  lemma RemappedInsert(mappings: map<(nat, string), nat>, c: nat, mapped: map<string, nat>, key: string, instance: nat)
    ensures Rendering.Remapped(mappings, c, mapped)[(c, key) := instance]
            == Rendering.Remapped(mappings, c, mapped[key := instance])
  {
    hide Rendering.Remapped;
    var a := Rendering.Remapped(mappings, c, mapped)[(c, key) := instance];
    var b := Rendering.Remapped(mappings, c, mapped[key := instance]);
    forall p ensures (p in a <==> p in b) && (p in a ==> a[p] == b[p]) {
      assert p == (p.0, p.1);
    }
    assert a == b;
  }

  /** Composing fails as soon as a prefix does. */
  lemma {:induction false} Doomed(s: Rendering.Scene, reqs: seq<Requirement>, n: nat, e: Error)
    requires n <= |reqs| && Rendering.Compose(s, reqs[..n]) == Err(e)
    ensures Rendering.Compose(s, reqs) == Err(e)
  {
    if n == |reqs| {
      assert reqs[..n] == reqs;
    } else {
      assert reqs[..|reqs| - 1][..n] == reqs[..n];
      Doomed(s, reqs[..|reqs| - 1], n, e);
    }
  }
}
