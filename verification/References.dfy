/** What the client lifecycle refers to: its steps write no other tables, and leave no reference dangling. */
module References {
  import opened Prelude
  import opened Rows
  import opened Clients
  import opened DeviceCodes
  import opened Invariants
  import opened Lifecycle
  import opened Cascade
  import RaceSafety
  import Rendering
  import TokenTraces

  /** The tables that registrations, redeems and device codes write. */
  predicate LifecycleOnly(t: Tables, u: Tables) {
    && t.nextId <= u.nextId
    && u == t.(nextId := u.nextId, apps := u.apps, releases := u.releases, devices := u.devices,
               oauthClients := u.oauthClients, clients := u.clients, mappings := u.mappings,
               tokens := u.tokens, codes := u.codes)
  }

  lemma OnlyTransitive(t: Tables, u: Tables, v: Tables)
    requires LifecycleOnly(t, u) && LifecycleOnly(u, v)
    ensures LifecycleOnly(t, v)
  {
  }

  lemma NodeOnly(w: Crypto, t: Tables, m: Manifest, organization: nat)
    requires GetOrCreateNode(w, t, m, organization).Ok?
    ensures LifecycleOnly(t, GetOrCreateNode(w, t, m, organization).value.0)
  {
    hide GetOrCreateNode;
  }

  lemma RegistryOnly(t: Tables, u: Tables)
    requires OnlyRegistry(t, u)
    ensures LifecycleOnly(t, u)
  {
  }

  lemma ValidateOnly(w: Crypto, t: Tables, r: nat, q: Request)
    requires r in t.tokens && ValidateRedeemToken(w, t, r, q).Ok?
    ensures LifecycleOnly(t, ValidateRedeemToken(w, t, r, q).value.0)
  {
    hide GetOrCreateNode, Reusable, FindOrCreate;
    var row, m := t.tokens[r], q.manifest;
    var organization := t.compositions[row.composition].organization;
    var (t1, node) := GetOrCreateNode(w, t, m, organization).value;
    NodeOnly(w, t, m, organization);
    var reusable := Reusable(t1, m.identifier, m.version, Development, node, row.user, organization, row.composition,
                             "");
    var (t2, c) := FindOrCreate(w, t1, reusable, RedeemOrder(row, organization, q)).value;
    RegistryOnly(t1, t2);
    OnlyTransitive(t, t1, t2);
  }

  lemma TokensOnly(t: Tables, u: Tables, tokens: map<nat, RedeemToken>)
    requires LifecycleOnly(t, u)
    ensures LifecycleOnly(t, u.(tokens := tokens))
  {
  }

  lemma Same(t: Tables)
    ensures LifecycleOnly(t, t)
  {
  }

  lemma LockedOnly(w: Crypto, t: Tables, r: nat, q: Request)
    requires r in t.tokens
    ensures LifecycleOnly(t, RedeemLocked(w, t, r, q).0)
  {
    hide ValidateRedeemToken, LifecycleOnly;
    var row, hash := t.tokens[r], w.manifestHash(q.manifest);
    Same(t);
    if row.client.Some? && row.manifestHash.None? {
      TokensOnly(t, t, t.tokens[r := row.(manifestHash := Some(hash))]);
    } else if RedeemLocked(w, t, r, q).0 != t {
      ValidateOnly(w, t, r, q);
      var u := ValidateRedeemToken(w, t, r, q).value.0;
      TokensOnly(t, u, u.tokens[r := u.tokens[r].(manifestHash := Some(hash))]);
    }
  }

  lemma RedeemOnly(w: Crypto, t: Tables, q: Request, now: int)
    ensures LifecycleOnly(t, Redeem(w, t, q, now).0)
  {
    hide RedeemLocked, First, TokenRows;
    match Get(TokenRows(t, q.token))
    case Found(r) => RedeemFoundOnly(w, t, q, now, r);
    case Missing =>
    case Many =>
  }

  lemma RedeemFoundOnly(w: Crypto, t: Tables, q: Request, now: int, r: nat)
    requires Get(TokenRows(t, q.token)) == Found(r)
    ensures LifecycleOnly(t, Redeem(w, t, q, now).0)
  {
    hide RedeemLocked, First;
    assert r in TokenRows(t, q.token);
    LockedOnly(w, t, r, q);
  }

  lemma AcceptOnly(w: Crypto, t: Tables, k: nat, a: Acceptance)
    requires AcceptDeviceCode(w, t, k, a).Ok?
    ensures LifecycleOnly(t, AcceptDeviceCode(w, t, k, a).value.0)
  {
    hide GetOrCreateNode, ReuseOrCreate;
    var row, organization := t.codes[k], t.compositions[a.composition].organization;
    var (t1, node) := GetOrCreateNode(w, t, row.manifest, organization).value;
    NodeOnly(w, t, row.manifest, organization);
    RegistryOnly(t1, ReuseOrCreate(w, t1, row, node, organization, a).value.0);
    OnlyTransitive(t, t1, ReuseOrCreate(w, t1, row, node, organization, a).value.0);
  }

  lemma SequenceGoesOn(w: Crypto, t: Tables, e: Timed)
    requires Sound(t)
    ensures t.nextId <= Step(w, t, e).0.nextId
  {
    hide Step, Sound, NoStrays, StatusesAgree;
    StepKeeps(w, t, e, false);
  }

  /** No step of the lifecycle writes another table. */
  lemma StepOnly(w: Crypto, t: Tables, e: Timed)
    requires Sound(t)
    ensures LifecycleOnly(t, Step(w, t, e).0)
  {
    hide *;
    Same(t);
    SequenceGoesOn(w, t, e);
    match e.event
    case Register(order) => RegisterOnly(w, t, e);
    case Issue(_, _, _, _, _) => IssueOnly(w, t, e);
    case Redeeming(request) => RedeemStepOnly(w, t, e);
    case Start(_, _, _) => StartOnly(w, t, e);
    case Accept(row, acceptance) => AcceptStepOnly(w, t, e);
    case DenyCode(row) => DenyOnly(w, t, e);
    case PollCode(code) => PollOnly(w, t, e);
  }

  lemma RegisterOnly(w: Crypto, t: Tables, e: Timed)
    requires e.event.Register?
    ensures LifecycleOnly(t, Step(w, t, e).0)
  {
    hide CreateClient;
  }

  lemma IssueOnly(w: Crypto, t: Tables, e: Timed)
    requires e.event.Issue? && t.nextId <= Step(w, t, e).0.nextId
    ensures LifecycleOnly(t, Step(w, t, e).0)
  {
    hide IssueToken;
  }

  lemma RedeemStepOnly(w: Crypto, t: Tables, e: Timed)
    requires e.event.Redeeming?
    ensures LifecycleOnly(t, Step(w, t, e).0)
  {
    hide Redeem, LifecycleOnly;
    RedeemOnly(w, t, e.event.request, e.now);
  }

  lemma StartOnly(w: Crypto, t: Tables, e: Timed)
    requires e.event.Start? && t.nextId <= Step(w, t, e).0.nextId
    ensures LifecycleOnly(t, Step(w, t, e).0)
  {
    hide StartDeviceCode;
  }

  lemma AcceptStepOnly(w: Crypto, t: Tables, e: Timed)
    requires e.event.Accept?
    ensures LifecycleOnly(t, Step(w, t, e).0)
  {
    hide AcceptDeviceCode, LifecycleOnly;
    Same(t);
    if AcceptDeviceCode(w, t, e.event.row,
                        e.event.acceptance).Ok? { AcceptOnly(w, t, e.event.row, e.event.acceptance); }
  }

  lemma DenyOnly(w: Crypto, t: Tables, e: Timed)
    requires e.event.DenyCode?
    ensures LifecycleOnly(t, Step(w, t, e).0)
  {
    hide Deny;
  }

  lemma PollOnly(w: Crypto, t: Tables, e: Timed)
    requires e.event.PollCode?
    ensures LifecycleOnly(t, Step(w, t, e).0)
  {
    hide Challenge;
  }

  // ---- Clients and mappings --------------------------------------------------------------------------------------

  /** Each mapped instance belongs to the composition of the client. */
  ghost predicate WithinFor(t: Tables, c: nat) {
    forall k :: (c, k) in t.mappings ==>
      c in t.clients && t.mappings[(c, k)] in t.instances
      && t.clients[c].composition == Some(t.instances[t.mappings[(c, k)]].composition)
  }

  ghost predicate Within(t: Tables) {
    forall c: nat :: WithinFor(t, c)
  }

  lemma MappedIsEligible(s: Rendering.Scene, reqs: seq<Requirement>, key: string)
    requires Rendering.Compose(s, reqs).Ok? && key in Rendering.Compose(s, reqs).value.mapped
    ensures var i := Rendering.Compose(s, reqs).value.mapped[key];
            i in s.t.instances && s.composition == Some(s.t.instances[i].composition)
  {
    hide Rendering.Compose, Rendering.Admits, Rendering.ServiceOf, Rendering.StatusFor;
    Rendering.ComposeMeaning(s, reqs);
    var i :| Rendering.FirstToAsk(s, reqs, i, key);
    var instance := Rendering.Instance(s, reqs[i]);
    assert instance.value in Rendering.Eligible(s.t, reqs[i].service, s.user, s.composition);
  }

  lemma ComposeRefers(w: Crypto, t: Tables, c: nat, reqs: seq<Requirement>, user: nat, declined: set<string>)
    requires c in t.clients && ClientsRefer(t) && Rendering.AutoCompose(w, t, c, reqs, user, declined).Ok?
    ensures var u := Rendering.AutoCompose(w, t, c, reqs, user, declined).value;
            && ClientsRefer(u) && (reqs != [] ==> WithinFor(u, c))
            && forall d :: d != c && WithinFor(t, d) ==> WithinFor(u, d)
  {
    hide Rendering.Compose, Rendering.Remapped;
    if reqs != [] {
      var s := Rendering.Scene(t, user, t.clients[c].composition, declined);
      var composed := Rendering.Compose(s, reqs).value;
      forall k | k in composed.mapped
        ensures composed.mapped[k] in t.instances
                && t.clients[c].composition == Some(t.instances[composed.mapped[k]].composition)
      {
        MappedIsEligible(s, reqs, k);
      }
      RemappedRefers(t, Rendering.AutoCompose(w, t, c, reqs, user, declined).value, c, composed.mapped);
    }
  }

  lemma RemappedRefers(t: Tables, u: Tables, c: nat, mapped: map<string, nat>)
    requires c in t.clients && c in u.clients && ClientsRefer(t)
    requires u == t.(mappings := Rendering.Remapped(t.mappings, c, mapped), clients := t.clients[c := u.clients[c]])
    requires u.clients[c].composition == t.clients[c].composition && u.clients[c].scopes == t.clients[c].scopes
    requires forall k :: k in mapped ==>
               mapped[k] in t.instances && t.clients[c].composition == Some(t.instances[mapped[k]].composition)
    ensures ClientsRefer(u) && WithinFor(u, c)
    ensures forall d :: d != c && WithinFor(t, d) ==> WithinFor(u, d)
  {
    hide Rendering.Remapped;
    forall p | p in u.mappings ensures p.0 in u.clients && u.mappings[p] in u.instances {
      assert p == (p.0, p.1);
    }
  }

  /** A client row can only be saved for a composition that exists. */
  lemma DevelopmentClientRefers(t: Tables, g: Registration)
    requires SoundRegistry(t) && ClientsRefer(t) && CreateDevelopmentClient(t, g).Ok?
    ensures var (u, c) := CreateDevelopmentClient(t, g).value;
            ClientsRefer(u) && forall d :: d != c && WithinFor(t, d) ==> WithinFor(u, d)
  {
    hide *;
    NewRowRefers(t, g);
    match Get(g.Rows(t))
    case Found(c) => UpdatedRowRefers(t, g);
    case Missing => InsertedRowRefers(t, g);
    case Many => NeedsOne(t, g);
  }

  lemma UpdatedRowRefers(t: Tables, g: Registration)
    requires ClientsRefer(t) && CreateDevelopmentClient(t, g).Ok? && Get(g.Rows(t)).Found?
    requires var (u, c) := CreateDevelopmentClient(t, g).value;
             c in t.clients && c in u.clients && In(u.clients[c].composition, t.compositions.Keys)
                 && u.clients[c].scopes == t.clients[c].scopes
    ensures var (u, c) := CreateDevelopmentClient(t, g).value;
            ClientsRefer(u) && forall d :: d != c && WithinFor(t, d) ==> WithinFor(u, d)
  {
    hide CreateDevelopmentClient, ClientsRefer, DevelopmentRows, IsFor, WithinFor, In, First, Get;
    ReusesRow(t, g);
    RowRefers(t, CreateDevelopmentClient(t, g).value.0, CreateDevelopmentClient(t, g).value.1);
  }

  lemma InsertedRowRefers(t: Tables, g: Registration)
    requires ClientsRefer(t) && CreateDevelopmentClient(t, g).Ok? && Get(g.Rows(t)).Missing?
    requires var (u, c) := CreateDevelopmentClient(t, g).value;
             c in u.clients && In(u.clients[c].composition, t.compositions.Keys) && u.clients[c].scopes == {}
    ensures var (u, c) := CreateDevelopmentClient(t, g).value;
            ClientsRefer(u) && forall d :: d != c && WithinFor(t, d) ==> WithinFor(u, d)
  {
    hide CreateDevelopmentClient, ClientsRefer, DevelopmentRows, IsFor, WithinFor, In, First, Get;
    AddsRow(t, g);
    RowRefers(t, CreateDevelopmentClient(t, g).value.0, CreateDevelopmentClient(t, g).value.1);
  }

  lemma NewRowRefers(t: Tables, g: Registration)
    requires CreateDevelopmentClient(t, g).Ok?
    ensures var (u, c) := CreateDevelopmentClient(t, g).value;
            && c in u.clients && In(u.clients[c].composition, t.compositions.Keys)
            && (Get(g.Rows(t)).Found? ==> c in t.clients && u.clients[c].scopes == t.clients[c].scopes)
            && (Get(g.Rows(t)).Missing? ==> u.clients[c].scopes == {})
  {
    hide *;
    match Get(g.Rows(t))
    case Found(c) => FoundRowRefers(t, g, c);
    case Missing => AddedRowRefers(t, g);
    case Many => NeedsOne(t, g);
  }

  lemma SavedRow(t: Tables, c: nat, row: Client)
    requires SaveClient(t, c, row).Ok?
    ensures SaveClient(t, c, row).value == t.(clients := t.clients[c := row])
            && In(row.composition, t.compositions.Keys)
  {
    hide ClientUnique;
  }

  lemma FoundRowRefers(t: Tables, g: Registration, c: nat)
    requires CreateDevelopmentClient(t, g).Ok? && Get(g.Rows(t)) == Found(c)
    ensures var (u, d) := CreateDevelopmentClient(t, g).value;
            d == c && c in t.clients && c in u.clients && In(u.clients[c].composition, t.compositions.Keys)
                && u.clients[c].scopes == t.clients[c].scopes
  {
    hide SaveClient, ConfigMembership, DevelopmentRows, First, Get;
    GetOne(g.Rows(t), c);
    SameKey(t, g, c);
    SavedRow(t, c, g.Updated(t.clients[c], ConfigMembership(t, g.config).value));
  }

  lemma GetOne(ids: set<nat>, c: nat)
    requires Get(ids) == Found(c)
    ensures ids == {c}
  {
  }

  lemma AddedRowRefers(t: Tables, g: Registration)
    requires CreateDevelopmentClient(t, g).Ok? && Get(g.Rows(t)).Missing?
    ensures var (u, c) := CreateDevelopmentClient(t, g).value;
            c in u.clients && In(u.clients[c].composition, t.compositions.Keys) && u.clients[c].scopes == {}
  {
    hide SaveClient, ConfigMembership, DevelopmentRows, First, Get;
    var t1 := NewOAuthClient(t, g.clientId);
    SavedRow(t1.(nextId := t1.nextId + 1), t1.nextId, g.New(ConfigMembership(t1, g.config).value, t.nextId));
  }

  lemma RowRefers(t: Tables, u: Tables, c: nat)
    requires ClientsRefer(t) && c in u.clients && OnlyRegistry(t, u) && u.mappings == t.mappings
             && u.clients == t.clients[c := u.clients[c]]
    requires In(u.clients[c].composition, t.compositions.Keys) 
    requires u.clients[c].scopes == {} || (c in t.clients && u.clients[c].scopes == t.clients[c].scopes)
    ensures ClientsRefer(u) && forall d :: d != c && WithinFor(t, d) ==> WithinFor(u, d)
  {
  }

  lemma {:induction false} ScopesExist(t: Tables, organization: nat, names: seq<string>)
    requires ScopeIds(t, organization, names).Ok?
    ensures ScopeIds(t, organization, names).value <= t.scopes.Keys
  {
    if names != [] {
      var n := |names| - 1;
      ScopesExist(t, organization, names[..n]);
      ScopeExists(t, names[n], organization);
    }
  }

  lemma ScopeExists(t: Tables, name: string, organization: nat)
    ensures ScopeRows(t, name, organization) <= t.scopes.Keys
  {
  }

  lemma EquipRefers(w: Crypto, t: Tables, c: nat, m: Manifest, user: nat, organization: nat, declined: set<string>)
    requires c in t.clients && ClientsRefer(t) && Equip(w, t, c, m, user, organization, declined).Ok?
    ensures var u := Equip(w, t, c, m, user, organization, declined).value;
            && ClientsRefer(u) && (m.requirements != [] ==> WithinFor(u, c))
            && forall d :: d != c && WithinFor(t, d) ==> WithinFor(u, d)
  {
    hide Rendering.AutoCompose, ScopeIds, ClientsRefer, WithinFor;
    ComposeRefers(w, t, c, m.requirements, user, declined);
    var t1 := Rendering.AutoCompose(w, t, c, m.requirements, user, declined).value;
    ScopesExist(t1, organization, m.scopes);
    ScopedRefers(t1, c, ScopeIds(t1, organization, m.scopes).value);
  }

  lemma ScopedRefers(t: Tables, c: nat, scopes: set<nat>)
    requires c in t.clients && ClientsRefer(t) && scopes <= t.scopes.Keys
    ensures ClientsRefer(AddScopes(t, c, scopes))
    ensures forall d :: WithinFor(t, d) ==> WithinFor(AddScopes(t, c, scopes), d)
  {
  }

  lemma SameRefer(t: Tables, u: Tables)
    requires ClientsRefer(t) && u.clients == t.clients && u.mappings == t.mappings && u.compositions == t.compositions
    requires u.instances == t.instances && u.scopes == t.scopes
    ensures ClientsRefer(u) && (Within(t) ==> Within(u)) && forall d :: WithinFor(t, d) ==> WithinFor(u, d)
  {
    if Within(t) {
      forall d: nat ensures WithinFor(u, d) {
        assert WithinFor(t, d);
      }
    }
  }

  /** What a registration refers to exists; where it composes, or nothing was out of place, so are the mappings. */
  lemma CreateClientRefers(w: Crypto, t: Tables, o: Order)
    requires SoundRegistry(t) && ClientsRefer(t) && CreateClient(w, t, o).Ok?
    ensures ClientsRefer(CreateClient(w, t, o).value.0)
    ensures Within(t) && o.manifest.requirements != [] ==> Within(CreateClient(w, t, o).value.0)
  {
    hide SoundRegistry, ClientsRefer, WithinFor, Provision, CreateDevelopmentClient, Equip;
    var logo := FetchLogo(o.manifest, o.draw.download).value;
    var (t1, release, node) := Provision(w, t, o.manifest, o.organization, logo).value;
    ProvisionSound(w, t, o.manifest, o.organization, logo);
    ProvisionKeeps(w, t, o.manifest, o.organization, logo);
    SameRefer(t, t1);
    var g := Registration(release, o.config, o.manifest, node, o.composition, o.draw.clientId);
    var (t2, c) := CreateDevelopmentClient(t1, g).value;
    DevelopmentClientRefers(t1, g);
    EquipRefers(w, t2, c, o.manifest, o.user, o.organization, o.declined);
  }

  // ---- Redeeming and accepting ------------------------------------------------------------------------------------

  /** What both halves of a step promise: clients and mappings refer to what exists, and mappings stay in place
      where something is composed. */
  ghost predicate Refers(t: Tables, u: Tables, composes: bool) {
    ClientsRefer(u) && (composes && Within(t) ==> Within(u))
  }

  lemma NodeRefers(w: Crypto, t: Tables, m: Manifest, organization: nat)
    requires ClientsRefer(t) && GetOrCreateNode(w, t, m, organization).Ok?
    ensures Refers(t, GetOrCreateNode(w, t, m, organization).value.0, true)
  {
    hide GetOrCreateNode, ClientsRefer, WithinFor;
    SameRefer(t, GetOrCreateNode(w, t, m, organization).value.0);
  }

  lemma FindOrCreateRefers(w: Crypto, t: Tables, reusable: set<nat>, o: Order)
    requires SoundRegistry(t) && ClientsRefer(t) && reusable <= t.clients.Keys && FindOrCreate(w, t, reusable, o).Ok?
    ensures Refers(t, FindOrCreate(w, t, reusable, o).value.0, o.manifest.requirements != [])
  {
    hide CreateClient, ClientsRefer, Within, SoundRegistry;
    if First(reusable).None? { CreateClientRefers(w, t, o); }
  }

  lemma ValidateRefers(w: Crypto, t: Tables, r: nat, q: Request)
    requires Sound(t) && ClientsRefer(t) && r in t.tokens && ValidateRedeemToken(w, t, r, q).Ok?
    ensures Refers(t, ValidateRedeemToken(w, t, r, q).value.0, q.manifest.requirements != [])
  {
    hide Sound, GetOrCreateNode, Reusable, FindOrCreate, ClientsRefer, WithinFor, Within, Extends, StatusesAgree;
    var row, m := t.tokens[r], q.manifest;
    var organization := t.compositions[row.composition].organization;
    var (t1, node) := GetOrCreateNode(w, t, m, organization).value;
    NodeRefers(w, t, m, organization);
    NodeKeeps(w, t, m, organization);
    RegistrySound(t1);
    var reusable := Reusable(t1, m.identifier, m.version, Development, node, row.user, organization, row.composition,
                             "");
    var (t2, c) := FindOrCreate(w, t1, reusable, RedeemOrder(row, organization, q)).value;
    FindOrCreateRefers(w, t1, reusable, RedeemOrder(row, organization, q));
    SameRefer(t2, ValidateRedeemToken(w, t, r, q).value.0);
  }

  lemma LockedRefers(w: Crypto, t: Tables, r: nat, q: Request)
    requires Sound(t) && ClientsRefer(t) && r in t.tokens
    ensures Refers(t, RedeemLocked(w, t, r, q).0, q.manifest.requirements != [])
  {
    hide Sound, ValidateRedeemToken, ClientsRefer, Within;
    var row, hash := t.tokens[r], w.manifestHash(q.manifest);
    if row.client.Some? && row.manifestHash.None? {
      SameRefer(t, t.(tokens := t.tokens[r := row.(manifestHash := Some(hash))]));
    } else if RedeemLocked(w, t, r, q).0 != t {
      ValidateRefers(w, t, r, q);
      var u := ValidateRedeemToken(w, t, r, q).value.0;
      SameRefer(u, u.(tokens := u.tokens[r := u.tokens[r].(manifestHash := Some(hash))]));
    }
  }

  lemma RedeemRefers(w: Crypto, t: Tables, q: Request, now: int)
    requires Sound(t) && ClientsRefer(t)
    ensures Refers(t, Redeem(w, t, q, now).0, q.manifest.requirements != [])
  {
    hide Sound, RedeemLocked, ClientsRefer, Within;
    SameRefer(t, DropToken(t, q.token));
    if Get(TokenRows(t, q.token)).Found? {
      var r := Get(TokenRows(t, q.token)).id;
      assert r in TokenRows(t, q.token);
      LockedRefers(w, t, r, q);
    }
  }

  lemma ReuseRefers(w: Crypto, t: Tables, row: DeviceCode, node: Option<nat>, organization: nat, a: Acceptance)
    requires SoundRegistry(t) && ClientsRefer(t) && ReuseOrCreate(w, t, row, node, organization, a).Ok?
    ensures Refers(t, ReuseOrCreate(w, t, row, node, organization, a).value.0, row.manifest.requirements != [])
  {
    hide SoundRegistry, ClientsRefer, WithinFor, Rendering.AutoCompose, CreateClient, Reusable;
    var m := row.manifest;
    match First(Reusable(t, m.identifier, m.version, row.kind, node, a.user, organization, a.composition,
                         RedirectText(w, row.redirectUris)))
    case Some(c) =>
      ComposeRefers(w, t, c, m.requirements, a.user, a.declined);
    case None =>
      CreateClientRefers(w, t, Order(m, Config(Development, row.role, a.newToken, a.user, a.user, organization),
                                     a.user, organization, Some(a.composition), a.declined, a.draw));
  }

  lemma AcceptRefers(w: Crypto, t: Tables, k: nat, a: Acceptance)
    requires Sound(t) && ClientsRefer(t) && AcceptDeviceCode(w, t, k, a).Ok?
    ensures k in t.codes && Refers(t, AcceptDeviceCode(w, t, k, a).value.0, t.codes[k].manifest.requirements != [])
  {
    hide Sound, GetOrCreateNode, ReuseOrCreate, ClientsRefer, WithinFor, Within, Extends, StatusesAgree;
    var row, organization := t.codes[k], t.compositions[a.composition].organization;
    var (t1, node) := GetOrCreateNode(w, t, row.manifest, organization).value;
    NodeRefers(w, t, row.manifest, organization);
    NodeKeeps(w, t, row.manifest, organization);
    RegistrySound(t1);
    ReuseRefers(w, t1, row, node, organization, a);
    SameRefer(ReuseOrCreate(w, t1, row, node, organization, a).value.0, AcceptDeviceCode(w, t, k, a).value.0);
  }

  /** The manifest an event brings in, if any, lists a requirement. */
  predicate ListsSomething(t: Tables, e: Timed) {
    match e.event
    case Register(order) => order.manifest.requirements != []
    case Redeeming(request) => request.manifest.requirements != []
    case Accept(row, _) => row in t.codes ==> t.codes[row].manifest.requirements != []
    case _ => true
  }

  /** Steps that write vouchers only. */
  predicate VouchersOnly(t: Tables, u: Tables) {
    u == t.(nextId := u.nextId, tokens := u.tokens, codes := u.codes)
  }

  lemma IssueWrites(w: Crypto, t: Tables, e: Timed)
    requires e.event.Issue?
    ensures VouchersOnly(t, Step(w, t, e).0)
  {
    hide IssueToken;
  }

  lemma StartWrites(w: Crypto, t: Tables, e: Timed)
    requires e.event.Start?
    ensures VouchersOnly(t, Step(w, t, e).0)
  {
    hide StartDeviceCode;
  }

  lemma DenyWrites(w: Crypto, t: Tables, e: Timed)
    requires e.event.DenyCode?
    ensures VouchersOnly(t, Step(w, t, e).0)
  {
    hide Deny;
  }

  lemma PollWrites(w: Crypto, t: Tables, e: Timed)
    requires e.event.PollCode?
    ensures VouchersOnly(t, Step(w, t, e).0)
  {
    hide Challenge;
  }

  lemma VouchersRefersSame(t: Tables, u: Tables)
    requires ClientsRefer(t) && VouchersOnly(t, u)
    ensures Refers(t, u, true)
  {
    hide ClientsRefer, Within;
    SameRefer(t, u);
  }

  lemma OtherRefers(w: Crypto, t: Tables, e: Timed)
    requires ClientsRefer(t) && (e.event.Issue? || e.event.Start? || e.event.DenyCode? || e.event.PollCode?)
    ensures Refers(t, Step(w, t, e).0, true)
  {
    hide *;
    match e.event {
      case Issue(_, _, _, _, _) => IssueWrites(w, t, e);
      case Start(_, _, _) => StartWrites(w, t, e);
      case DenyCode(_) => DenyWrites(w, t, e);
      case PollCode(_) => PollWrites(w, t, e);
    }
    VouchersRefersSame(t, Step(w, t, e).0);
  }

  lemma RegisterRefers(w: Crypto, t: Tables, e: Timed)
    requires SoundRegistry(t) && ClientsRefer(t) && e.event.Register?
    ensures Refers(t, Step(w, t, e).0, e.event.order.manifest.requirements != [])
  {
    hide SoundRegistry, ClientsRefer, Within, CreateClient;
    if CreateClient(w, t, e.event.order).Ok? { CreateClientRefers(w, t, e.event.order); }
  }

  lemma AcceptStepRefers(w: Crypto, t: Tables, e: Timed)
    requires Sound(t) && ClientsRefer(t) && e.event.Accept?
    ensures Refers(t, Step(w, t, e).0, ListsSomething(t, e))
  {
    hide Sound, ClientsRefer, Within, AcceptDeviceCode;
    if AcceptDeviceCode(w, t, e.event.row,
                        e.event.acceptance).Ok? { AcceptRefers(w, t, e.event.row, e.event.acceptance); }
  }

  lemma RedeemStepRefers(w: Crypto, t: Tables, e: Timed)
    requires Sound(t) && ClientsRefer(t) && e.event.Redeeming?
    ensures Refers(t, Step(w, t, e).0, ListsSomething(t, e))
  {
    hide Sound, ClientsRefer, Within, Redeem;
    RedeemRefers(w, t, e.event.request, e.now);
  }

  lemma StepRefers(w: Crypto, t: Tables, e: Timed)
    requires Sound(t) && ClientsRefer(t)
    ensures Refers(t, Step(w, t, e).0, ListsSomething(t, e))
  {
    hide Sound, ClientsRefer, Within, Step;
    match e.event
    case Register(_) => RegistrySound(t); RegisterRefers(w, t, e);
    case Redeeming(_) => RedeemStepRefers(w, t, e);
    case Accept(_, _) => AcceptStepRefers(w, t, e);
    case _ => OtherRefers(w, t, e);
  }

  // ---- Redeem tokens ----------------------------------------------------------------------------------------------

  ghost predicate TokensIn(tokens: map<nat, RedeemToken>, compositions: set<nat>) {
    forall r :: r in tokens ==> tokens[r].composition in compositions
  }

  lemma PutIn(tokens: map<nat, RedeemToken>, r: nat, row: RedeemToken, compositions: set<nat>)
    requires TokensIn(tokens, compositions) && row.composition in compositions
    ensures TokensIn(tokens[r := row], compositions)
  {
  }

  lemma RowIn(tokens: map<nat, RedeemToken>, r: nat, compositions: set<nat>)
    requires TokensIn(tokens, compositions) && r in tokens
    ensures tokens[r].composition in compositions
  {
  }

  lemma LockedTokensIn(w: Crypto, t: Tables, r: nat, q: Request, compositions: set<nat>)
    requires r in t.tokens && TokensIn(t.tokens, compositions)
    ensures TokensIn(RedeemLocked(w, t, r, q).0.tokens, compositions)
  {
    hide RedeemLocked, TokensIn;
    RowIn(t.tokens, r, compositions);
    RaceSafety.LockedWrites(w, t, r, q);
    PutIn(t.tokens, r, RedeemLocked(w, t, r, q).0.tokens[r], compositions);
  }

  lemma RedeemTokensIn(w: Crypto, t: Tables, q: Request, now: int, compositions: set<nat>)
    requires TokensIn(t.tokens, compositions)
    ensures TokensIn(Redeem(w, t, q, now).0.tokens, compositions)
  {
    hide RedeemLocked;
    if Get(TokenRows(t, q.token)).Found? {
      var r := Get(TokenRows(t, q.token)).id;
      assert r in TokenRows(t, q.token);
      LockedTokensIn(w, t, r, q, compositions);
    }
  }

  lemma IssueTokensIn(t: Tables, e: Event)
    requires e.Issue? && TokensIn(t.tokens, t.compositions.Keys)
    ensures TokensIn(Outcome(t, IssueToken(t, e)).0.tokens, t.compositions.Keys)
  {
    hide *;
    match Get(TokenRows(t, e.token))
    case Found(k) => ReissueTokensIn(t, e, k);
    case _ => NewTokenIn(t, e);
  }

  lemma ReissueTokensIn(t: Tables, e: Event, k: nat)
    requires e.Issue? && TokensIn(t.tokens, t.compositions.Keys) && Get(TokenRows(t, e.token)) == Found(k)
    ensures TokensIn(Outcome(t, IssueToken(t, e)).0.tokens, t.compositions.Keys)
  {
    hide TokensIn, TokenRows, First;
    TokenTraces.InRows(t, e.token, k);
    if e.composition in t.compositions {
      PutIn(t.tokens, k, t.tokens[k].(user := e.user, composition := e.composition), t.compositions.Keys);
    }
  }

  lemma NewTokenIn(t: Tables, e: Event)
    requires e.Issue? && TokensIn(t.tokens, t.compositions.Keys) && !Get(TokenRows(t, e.token)).Found?
    ensures TokensIn(Outcome(t, IssueToken(t, e)).0.tokens, t.compositions.Keys)
  {
    hide TokensIn, TokenRows, First, Get;
    if e.composition in t.compositions {
      PutIn(t.tokens, t.nextId, RedeemToken(e.token, e.user, e.composition, None, e.expiresAt, None, e.allowReredeem),
            t.compositions.Keys);
    }
  }

  lemma SameTokensIn(w: Crypto, t: Tables, e: Timed, compositions: set<nat>)
    requires TokensIn(t.tokens, compositions) && !e.event.Issue? && !e.event.Redeeming?
    ensures TokensIn(Step(w, t, e).0.tokens, compositions)
  {
    hide Step;
    TokenTraces.SameTokens(w, t, e);
  }

  lemma StepTokensIn(w: Crypto, t: Tables, e: Timed)
    requires TokensIn(t.tokens, t.compositions.Keys)
    ensures TokensIn(Step(w, t, e).0.tokens, t.compositions.Keys)
  {
    hide TokensIn, CreateClient, Redeem, IssueToken, StartDeviceCode, AcceptDeviceCode, Deny, Challenge, Outcome;
    match e.event
    case Issue(_, _, _, _, _) => IssueTokensIn(t, e.event);
    case Redeeming(q) => RedeemTokensIn(w, t, q, e.now, t.compositions.Keys);
    case _ => SameTokensIn(w, t, e, t.compositions.Keys);
  }

  // ---- Whole steps ------------------------------------------------------------------------------------------------

  lemma VouchersFollow(t: Tables, u: Tables)
    requires VouchersRefer(t) && SoundVouchers(u) && Extends(t, u) && LifecycleOnly(t, u)
             && TokensIn(u.tokens, t.compositions.Keys)
    ensures VouchersRefer(u)
  {
    hide NoStrays, UniqueTokens, OneTokenPerClient, UniqueCodes, Drawn;
  }

  lemma OthersFollow(t: Tables, u: Tables)
    requires InstancesRefer(t) && CompositionsRefer(t) && LifecycleOnly(t, u)
    ensures InstancesRefer(u) && CompositionsRefer(u)
  {
  }

  lemma TokensAreIn(t: Tables)
    requires VouchersRefer(t)
    ensures TokensIn(t.tokens, t.compositions.Keys)
  {
  }

  /** No step of the lifecycle leaves a reference dangling; mappings stay within their client's composition where
      the manifest lists a requirement. */
  lemma StepKeepsReferences(w: Crypto, t: Tables, e: Timed)
    requires Sound(t) && NoDangling(t)
    ensures NoDangling(Step(w, t, e).0)
    ensures Within(t) && ListsSomething(t, e) ==> Within(Step(w, t, e).0)
  {
    hide SoundRegistry, SoundVouchers, Extends, StatusesAgree, Step, InstancesRefer, ClientsRefer, VouchersRefer,
      CompositionsRefer, Within, LifecycleOnly, TokensIn, UniqueMemberships, UniqueScopes, ListsSomething;
    var u := Step(w, t, e).0;
    StepKeeps(w, t, e, false);
    StepOnly(w, t, e);
    StepRefers(w, t, e);
    TokensAreIn(t);
    StepTokensIn(w, t, e);
    VouchersFollow(t, u);
    OthersFollow(t, u);
  }
}
