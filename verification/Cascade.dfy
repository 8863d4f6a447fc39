/** `composition.delete()`: the collector follows the CASCADE foreign keys from the composition, deletes
    every row it reaches, clears the SET NULL references and drops the many-to-many links. */
module Cascade {
  import opened Prelude
  import opened Rows
  import opened Invariants
  import opened DatabaseServices

  /** A row of a table that the cascade can reach. */
  datatype Node =
    | CompositionNode(id: nat)
    | InstanceNode(id: nat)
    | ClientNode(id: nat)
    | TokenNode(id: nat)
    | MappingNode(pair: (nat, string))
    | AliasNode(id: nat)
    | UsedAliasNode(id: nat)
    | PermissionNode(id: nat)
    | RoleNode(id: nat)
    | ScopeNode(id: nat)
    | DeviceCodeNode(id: nat)
    | ServiceCodeNode(id: nat)
    | CompositionCodeNode(id: nat)
    | AuthKeyNode(id: nat)

  /** The rows that refer to a row by a CASCADE foreign key. */
  function Referrers(t: Tables, n: Node): set<Node> {
    match n
    case CompositionNode(c) =>
      (set i | i in t.instances && t.instances[i].composition == c :: InstanceNode(i))
      + (set k | k in t.clients && t.clients[k].composition == Some(c) :: ClientNode(k))
      + (set r | r in t.tokens && t.tokens[r].composition == c :: TokenNode(r))
      + (set k | k in t.compositionCodes && t.compositionCodes[k].target == Some(c) :: CompositionCodeNode(k))
      + (set k | k in t.authKeys && t.authKeys[k].target == Some(c) :: AuthKeyNode(k))
    case InstanceNode(i) =>
      (set p | p in t.mappings && t.mappings[p] == i :: MappingNode(p))
      + (set a | a in t.aliases && t.aliases[a].instance == i :: AliasNode(a))
      + (set q | q in t.permissions && t.permissions[q] == i :: PermissionNode(q))
      + (set g | g in t.roles && t.roles[g].creatingInstance == Some(i) :: RoleNode(g))
      + (set g | g in t.scopes && t.scopes[g].creatingInstance == Some(i) :: ScopeNode(g))
      + (set k | k in t.serviceCodes && t.serviceCodes[k].target == Some(i) :: ServiceCodeNode(k))
    case ClientNode(c) =>
      (set p | p in t.mappings && p.0 == c :: MappingNode(p))
      + (set r | r in t.tokens && t.tokens[r].client == Some(c) :: TokenNode(r))
      + (set k | k in t.codes && t.codes[k].client == Some(c) :: DeviceCodeNode(k))
      + (set v | v in t.usedAliases && t.usedAliases[v].client == c :: UsedAliasNode(v))
    case AliasNode(a) =>
      set v | v in t.usedAliases && t.usedAliases[v].alias == Some(a) :: UsedAliasNode(v)
    case _ => {}
  }

  // ---- What a deletion reaches, table by table ------------------------------------------------------------

  function GoneInstances(t: Tables, c: nat): set<nat> { set i | i in t.instances && t.instances[i].composition == c }

  function GoneClients(t: Tables, c: nat): set<nat> { set k | k in t.clients && t.clients[k].composition == Some(c) }

  predicate Holds(x: Option<nat>, ids: set<nat>) { x.Some? && x.value in ids }

  function GoneTokens(t: Tables, c: nat): set<nat> {
    set r | r in t.tokens && (t.tokens[r].composition == c || Holds(t.tokens[r].client, GoneClients(t, c)))
  }

  function GoneMappings(t: Tables, c: nat): set<(nat, string)> {
    set p | p in t.mappings && (p.0 in GoneClients(t, c) || t.mappings[p] in GoneInstances(t, c))
  }

  function GoneAliases(t: Tables, c: nat): set<nat> {
    set a | a in t.aliases && t.aliases[a].instance in GoneInstances(t, c)
  }

  function GoneUsedAliases(t: Tables, c: nat): set<nat> {
    set v | v in t.usedAliases
        && (t.usedAliases[v].client in GoneClients(t, c) || Holds(t.usedAliases[v].alias, GoneAliases(t, c)))
  }

  function GonePermissions(t: Tables, c: nat): set<nat> {
    set q | q in t.permissions && t.permissions[q] in GoneInstances(t, c)
  }

  function GoneGrants(grants: map<nat, Grant>, instances: set<nat>): set<nat> {
    set g | g in grants && Holds(grants[g].creatingInstance, instances)
  }

  function GoneCodes(t: Tables, c: nat): set<nat> {
    set k | k in t.codes && Holds(t.codes[k].client, GoneClients(t, c))
  }

  function GoneServiceCodes(t: Tables, c: nat): set<nat> {
    set k | k in t.serviceCodes && Holds(t.serviceCodes[k].target, GoneInstances(t, c))
  }

  function GoneCompositionCodes(t: Tables, c: nat): set<nat> {
    set k | k in t.compositionCodes && t.compositionCodes[k].target == Some(c)
  }

  function GoneAuthKeys(t: Tables, c: nat): set<nat> { set k | k in t.authKeys && t.authKeys[k].target == Some(c) }

  predicate Gone(t: Tables, c: nat, n: Node) {
    match n
    case CompositionNode(id) => id == c
    case InstanceNode(id) => id in GoneInstances(t, c)
    case ClientNode(id) => id in GoneClients(t, c)
    case TokenNode(id) => id in GoneTokens(t, c)
    case MappingNode(p) => p in GoneMappings(t, c)
    case AliasNode(id) => id in GoneAliases(t, c)
    case UsedAliasNode(id) => id in GoneUsedAliases(t, c)
    case PermissionNode(id) => id in GonePermissions(t, c)
    case RoleNode(id) => id in GoneGrants(t.roles, GoneInstances(t, c))
    case ScopeNode(id) => id in GoneGrants(t.scopes, GoneInstances(t, c))
    case DeviceCodeNode(id) => id in GoneCodes(t, c)
    case ServiceCodeNode(id) => id in GoneServiceCodes(t, c)
    case CompositionCodeNode(id) => id in GoneCompositionCodes(t, c)
    case AuthKeyNode(id) => id in GoneAuthKeys(t, c)
  }

  /** The same as two finite sets. */
  ghost function GoneHolders(t: Tables, c: nat): set<Node> {
    {CompositionNode(c)}
    + (set i | i in GoneInstances(t, c) :: InstanceNode(i)) + (set k | k in GoneClients(t, c) :: ClientNode(k))
    + (set a | a in GoneAliases(t, c) :: AliasNode(a)) + (set k | k in GoneAuthKeys(t, c) :: AuthKeyNode(k))
    + (set g | g in GoneGrants(t.roles, GoneInstances(t, c)) :: RoleNode(g))
    + (set g | g in GoneGrants(t.scopes, GoneInstances(t, c)) :: ScopeNode(g))
  }

  ghost function GoneLeaves(t: Tables, c: nat): set<Node> {
    (set r | r in GoneTokens(t, c) :: TokenNode(r)) + (set p | p in GoneMappings(t, c) :: MappingNode(p))
    + (set v | v in GoneUsedAliases(t, c) :: UsedAliasNode(v))
        + (set q | q in GonePermissions(t, c) :: PermissionNode(q))
    + (set k | k in GoneCodes(t, c) :: DeviceCodeNode(k)) + (set k | k in GoneServiceCodes(t, c) :: ServiceCodeNode(k))
    + (set k | k in GoneCompositionCodes(t, c) :: CompositionCodeNode(k))
  }

  predicate Holder(n: Node) {
    n.CompositionNode? || n.InstanceNode? || n.ClientNode? || n.AliasNode? || n.AuthKeyNode? || n.RoleNode?
        || n.ScopeNode?
  }

  lemma GoneHolder(t: Tables, c: nat, n: Node)
    requires Gone(t, c, n) && Holder(n)
    ensures n in GoneHolders(t, c)
  {
    hide GoneInstances, GoneClients, GoneAliases, GoneGrants, GoneAuthKeys;
  }

  lemma GoneLeaf(t: Tables, c: nat, n: Node)
    requires Gone(t, c, n) && !Holder(n)
    ensures n in GoneLeaves(t, c)
  {
    hide GoneTokens, GoneMappings, GoneUsedAliases, GonePermissions, GoneCodes, GoneServiceCodes, GoneCompositionCodes;
  }

  ghost function GoneNodes(t: Tables, c: nat): set<Node> { GoneHolders(t, c) + GoneLeaves(t, c) }

  lemma GoneNodesAreGone(t: Tables, c: nat, n: Node)
    requires Gone(t, c, n)
    ensures n in GoneNodes(t, c)
  {
    hide Gone, GoneHolders, GoneLeaves;
    if Holder(n) { GoneHolder(t, c, n); } else { GoneLeaf(t, c, n); }
  }

  /** The referrers of one kind of row, named one by one. */
  predicate Refers(t: Tables, m: Node, n: Node) {
    match m
    case CompositionNode(_) => false
    case InstanceNode(i) => i in t.instances && n == CompositionNode(t.instances[i].composition)
    case ClientNode(k) => k in t.clients && n.CompositionNode? && t.clients[k].composition == Some(n.id)
    case TokenNode(r) =>
      r in t.tokens && (n == CompositionNode(t.tokens[r].composition)
                        || (n.ClientNode? && t.tokens[r].client == Some(n.id)))
    case MappingNode(p) => p in t.mappings && (n == ClientNode(p.0) || n == InstanceNode(t.mappings[p]))
    case AliasNode(a) => a in t.aliases && n == InstanceNode(t.aliases[a].instance)
    case UsedAliasNode(v) =>
      v in t.usedAliases && (n == ClientNode(t.usedAliases[v].client)
                             || (n.AliasNode? && t.usedAliases[v].alias == Some(n.id)))
    case PermissionNode(q) => q in t.permissions && n == InstanceNode(t.permissions[q])
    case RoleNode(g) => g in t.roles && n.InstanceNode? && t.roles[g].creatingInstance == Some(n.id)
    case ScopeNode(g) => g in t.scopes && n.InstanceNode? && t.scopes[g].creatingInstance == Some(n.id)
    case DeviceCodeNode(k) => k in t.codes && n.ClientNode? && t.codes[k].client == Some(n.id)
    case ServiceCodeNode(k) => k in t.serviceCodes && n.InstanceNode? && t.serviceCodes[k].target == Some(n.id)
    case CompositionCodeNode(k) => k in t.compositionCodes && n.CompositionNode?
        && t.compositionCodes[k].target == Some(n.id)
    case AuthKeyNode(k) => k in t.authKeys && n.CompositionNode? && t.authKeys[k].target == Some(n.id)
  }

  lemma CompositionReferrers(t: Tables, c: nat, m: Node)
    ensures m in Referrers(t, CompositionNode(c)) <==> Refers(t, m, CompositionNode(c))
  {
  }

  lemma InstanceReferrers(t: Tables, i: nat, m: Node)
    ensures m in Referrers(t, InstanceNode(i)) <==> Refers(t, m, InstanceNode(i))
  {
  }

  lemma ClientReferrers(t: Tables, k: nat, m: Node)
    ensures m in Referrers(t, ClientNode(k)) <==> Refers(t, m, ClientNode(k))
  {
  }

  lemma OtherReferrers(t: Tables, n: Node, m: Node)
    requires !n.CompositionNode? && !n.InstanceNode? && !n.ClientNode?
    ensures m in Referrers(t, n) <==> Refers(t, m, n)
  {
  }

  /** `Referrers` lists what `Refers` says of each kind of row. */
  lemma ReferrersRefer(t: Tables, n: Node, m: Node)
    ensures m in Referrers(t, n) <==> Refers(t, m, n)
  {
    hide *;
    match n
    case CompositionNode(c) => CompositionReferrers(t, c, m);
    case InstanceNode(i) => InstanceReferrers(t, i, m);
    case ClientNode(k) => ClientReferrers(t, k, m);
    case _ => OtherReferrers(t, n, m);
  }

  /** What refers to a row that goes, goes too. */
  lemma GoneIsClosed(t: Tables, c: nat, n: Node, m: Node)
    requires Gone(t, c, n) && Refers(t, m, n)
    ensures Gone(t, c, m)
  {
  }

  function Rank(n: Node): nat {
    match n
    case CompositionNode(_) => 0
    case InstanceNode(_) => 1
    case ClientNode(_) => 1
    case AliasNode(_) => 2
    case _ => 3
  }

  /** The row through which the cascade reaches another. */
  function Parent(t: Tables, c: nat, n: Node): (p: Node)
    requires Gone(t, c, n) && !n.CompositionNode?
    ensures Gone(t, c, p) && Refers(t, n, p) && Rank(p) < Rank(n)
  {
    match n
    case InstanceNode(_) => CompositionNode(c)
    case ClientNode(_) => CompositionNode(c)
    case TokenNode(r) => if t.tokens[r].composition == c then CompositionNode(c)
        else ClientNode(t.tokens[r].client.value)
    case MappingNode(p) => if p.0 in GoneClients(t, c) then ClientNode(p.0) else InstanceNode(t.mappings[p])
    case AliasNode(a) => InstanceNode(t.aliases[a].instance)
    case UsedAliasNode(v) =>
      if t.usedAliases[v].client in GoneClients(t, c) then ClientNode(t.usedAliases[v].client)
      else AliasNode(t.usedAliases[v].alias.value)
    case PermissionNode(q) => InstanceNode(t.permissions[q])
    case RoleNode(g) => InstanceNode(t.roles[g].creatingInstance.value)
    case ScopeNode(g) => InstanceNode(t.scopes[g].creatingInstance.value)
    case DeviceCodeNode(k) => ClientNode(t.codes[k].client.value)
    case ServiceCodeNode(k) => InstanceNode(t.serviceCodes[k].target.value)
    case CompositionCodeNode(_) => CompositionNode(c)
    case AuthKeyNode(_) => CompositionNode(c)
  }

  ghost predicate Closed(t: Tables, nodes: set<Node>) {
    forall n, m :: n in nodes && m in Referrers(t, n) ==> m in nodes
  }

  /** Whatever goes is reached from the composition. */
  lemma {:induction false} GoneIsReached(t: Tables, c: nat, nodes: set<Node>, n: Node)
    requires CompositionNode(c) in nodes && Closed(t, nodes) && Gone(t, c, n)
    ensures n in nodes
    decreases Rank(n)
  {
    hide Gone, Referrers, Refers;
    if n.CompositionNode? {
      RootOnly(t, c, n);
    } else {
      var p := Parent(t, c, n);
      GoneIsReached(t, c, nodes, p);
      ReferrersRefer(t, p, n);
    }
  }

  lemma RootOnly(t: Tables, c: nat, n: Node)
    requires Gone(t, c, n) && n.CompositionNode?
    ensures n == CompositionNode(c)
  {
  }

  /** The collector: it stops, and has found exactly the rows that go. */
  method Collect(t: Tables, c: nat) returns (doomed: set<Node>)
    ensures forall n :: n in doomed <==> Gone(t, c, n)
  {
    hide Gone, Referrers, GoneNodes;
    doomed := {CompositionNode(c)};
    var todo := doomed;
    RootGone(t, c);
    while todo != {}
      invariant todo <= doomed && CompositionNode(c) in doomed
      invariant forall n :: n in doomed ==> Gone(t, c, n)
      invariant forall n, m :: n in doomed && n !in todo && m in Referrers(t, n) ==> m in doomed
      decreases GoneNodes(t, c) - doomed, todo
    {
      var n :| n in todo;
      var found := Referrers(t, n) - doomed;
      forall m | m in found ensures Gone(t, c, m) && m in GoneNodes(t, c) {
        ReferrersRefer(t, n, m);
        GoneIsClosed(t, c, n, m);
        GoneNodesAreGone(t, c, m);
      }
      ghost var before := doomed;
      doomed := doomed + found;
      todo := (todo - {n}) + found;
      if m :| m in found {
        assert m in GoneNodes(t, c) - before && m !in GoneNodes(t, c) - doomed;
      }
    }
    forall n | Gone(t, c, n) ensures n in doomed {
      GoneIsReached(t, c, doomed, n);
    }
  }

  lemma RootGone(t: Tables, c: nat)
    ensures Gone(t, c, CompositionNode(c))
  {
  }

  // ---- The deletion -----------------------------------------------------------------------------------------

  function GrantsWithout(grants: map<nat, Grant>, gone: set<nat>, instances: set<nat>): map<nat, Grant> {
    map g | g in grants && g !in gone :: grants[g].(usedBy := grants[g].usedBy - instances)
  }

  function ClientsWithout(clients: map<nat, Client>, gone: set<nat>, scopes: set<nat>): map<nat, Client> {
    map k | k in clients && k !in gone :: clients[k].(scopes := clients[k].scopes - scopes)
  }

  function MembershipsWithout(memberships: map<nat, Membership>, roles: set<nat>): map<nat, Membership> {
    map m | m in memberships :: memberships[m].(roles := memberships[m].roles - roles)
  }

  /** A composition forgets an auth key that goes. */
  function CompositionsWithout(compositions: map<nat, Composition>, c: nat, authKeys: set<nat>): map<nat, Composition> {
    map k | k in compositions && k != c ::
      if Holds(compositions[k].authKey, authKeys) then compositions[k].(authKey := None) else compositions[k]
  }

  function Delete(t: Tables, c: nat): Tables {
    var instances := GoneInstances(t, c);
    var roles, scopes := GoneGrants(t.roles, instances), GoneGrants(t.scopes, instances);
    t.(compositions := CompositionsWithout(t.compositions, c, GoneAuthKeys(t, c)),
       instances := t.instances - instances,
       clients := ClientsWithout(t.clients, GoneClients(t, c), scopes),
       tokens := t.tokens - GoneTokens(t, c),
       codes := t.codes - GoneCodes(t, c),
       mappings := t.mappings - GoneMappings(t, c),
       aliases := t.aliases - GoneAliases(t, c),
       usedAliases := t.usedAliases - GoneUsedAliases(t, c),
       permissions := t.permissions - GonePermissions(t, c),
       roles := GrantsWithout(t.roles, roles, instances),
       scopes := GrantsWithout(t.scopes, scopes, instances),
       memberships := MembershipsWithout(t.memberships, roles),
       serviceCodes := t.serviceCodes - GoneServiceCodes(t, c),
       compositionCodes := t.compositionCodes - GoneCompositionCodes(t, c),
       authKeys := t.authKeys - GoneAuthKeys(t, c))
  }

  // ---- No dangling references ---------------------------------------------------------------------------------

  predicate In(x: Option<nat>, ids: set<nat>) { x.Some? ==> x.value in ids }

  ghost predicate GrantsRefer(grants: map<nat, Grant>, instances: set<nat>) {
    forall g :: g in grants ==> In(grants[g].creatingInstance, instances) && grants[g].usedBy <= instances
  }

  ghost predicate InstancesRefer(t: Tables) {
    && (forall i :: i in t.instances ==> t.instances[i].composition in t.compositions)
    && (forall a :: a in t.aliases ==> t.aliases[a].instance in t.instances)
    && (forall q :: q in t.permissions ==> t.permissions[q] in t.instances)
    && (forall k :: k in t.serviceCodes ==> In(t.serviceCodes[k].target, t.instances.Keys))
    && GrantsRefer(t.roles, t.instances.Keys) && GrantsRefer(t.scopes, t.instances.Keys)
    && (forall m :: m in t.memberships ==> t.memberships[m].roles <= t.roles.Keys)
  }

  ghost predicate ClientsRefer(t: Tables) {
    && (forall k :: k in t.clients ==>
          In(t.clients[k].composition, t.compositions.Keys) && t.clients[k].scopes <= t.scopes.Keys)
    && (forall p :: p in t.mappings ==> p.0 in t.clients && t.mappings[p] in t.instances)
  }

  ghost predicate VouchersRefer(t: Tables) {
    && (forall r :: r in t.tokens ==>
        t.tokens[r].composition in t.compositions && In(t.tokens[r].client, t.clients.Keys))
    && (forall k :: k in t.codes ==> In(t.codes[k].client, t.clients.Keys))
    && (forall v :: v in t.usedAliases ==>
          t.usedAliases[v].client in t.clients && In(t.usedAliases[v].alias, t.aliases.Keys))
  }

  ghost predicate CompositionsRefer(t: Tables) {
    && (forall k :: k in t.compositions ==> In(t.compositions[k].authKey, t.authKeys.Keys))
    && (forall k :: k in t.authKeys ==> In(t.authKeys[k].target, t.compositions.Keys))
    && (forall k :: k in t.compositionCodes ==> In(t.compositionCodes[k].target, t.compositions.Keys))
  }

  /** Every reference to a composition, instance, client, alias, role, scope or auth key finds its row. */
  ghost predicate NoDangling(t: Tables) {
    InstancesRefer(t) && ClientsRefer(t) && VouchersRefer(t) && CompositionsRefer(t)
  }

  lemma DeleteKeepsInstanceReferences(t: Tables, c: nat)
    requires InstancesRefer(t)
    ensures InstancesRefer(Delete(t, c))
  {
  }

  lemma DeleteKeepsClientReferences(t: Tables, c: nat)
    requires ClientsRefer(t)
    ensures ClientsRefer(Delete(t, c))
  {
    hide GonePermissions, GoneServiceCodes, GoneCompositionCodes, GoneAuthKeys, MembershipsWithout, GoneTokens,
      GoneCodes, GoneUsedAliases;
  }

  lemma DeleteKeepsVoucherReferences(t: Tables, c: nat)
    requires VouchersRefer(t)
    ensures VouchersRefer(Delete(t, c))
  {
    hide GonePermissions, GoneServiceCodes, GoneCompositionCodes, GoneAuthKeys, MembershipsWithout, GrantsWithout,
      GoneGrants, GoneMappings;
  }

  lemma DeleteKeepsCompositionReferences(t: Tables, c: nat)
    requires CompositionsRefer(t)
    ensures CompositionsRefer(Delete(t, c))
  {
  }

  /** After the deletion no row refers to a composition, instance, client, alias, role, scope or auth
      key that is gone. */
  lemma {:induction false} DeleteLeavesNoDangling(t: Tables, c: nat)
    requires NoDangling(t)
    ensures NoDangling(Delete(t, c))
  {
    hide InstancesRefer, ClientsRefer, VouchersRefer, CompositionsRefer, Delete;
    DeleteKeepsVoucherReferences(t, c);
    DeleteKeepsInstanceReferences(t, c);
    DeleteKeepsClientReferences(t, c);
    DeleteKeepsCompositionReferences(t, c);
  }

  // ---- What remains -------------------------------------------------------------------------------------------

  /** All other compositions remain, with all their instances and the instances' aliases; a composition
      loses no more than an auth key that belonged to the deleted one. */
  lemma OtherCompositionsRemain(t: Tables, c: nat, d: nat)
    requires d in t.compositions && d != c
    ensures var u := Delete(t, c);
            && d in u.compositions
            && (u.compositions[d] == t.compositions[d]
                || (Holds(t.compositions[d].authKey, GoneAuthKeys(t, c))
                    && u.compositions[d] == t.compositions[d].(authKey := None)))
            && (forall i :: i in t.instances && t.instances[i].composition == d ==>
                  && i in u.instances && u.instances[i] == t.instances[i]
                  && forall a :: a in t.aliases && t.aliases[a].instance == i ==>
                        a in u.aliases && u.aliases[a] == t.aliases[a])
            && (forall k :: k in t.clients && t.clients[k].composition == Some(d) ==>
                  k in u.clients && u.clients[k] == t.clients[k].(scopes := u.clients[k].scopes)
                      && u.clients[k].scopes <= t.clients[k].scopes)
  {
    hide GoneTokens, GoneMappings, GoneUsedAliases, GonePermissions, GoneCodes, GoneServiceCodes, GoneCompositionCodes,
      GoneGrants, GrantsWithout, MembershipsWithout, GoneAuthKeys;
  }

  /** What is left of a table: the rows that do not go, as they were. */
  ghost predicate Rest<K, T>(before: map<K, T>, after: map<K, T>, gone: set<K>) {
    && (forall k :: k in before && k !in gone ==> k in after && after[k] == before[k])
    && (forall k :: k in after ==> k in before && k !in gone)
  }

  /** The rows the deletion touches without deleting them lose what refers to a deleted row, and nothing else. */
  ghost predicate Cleared(t: Tables, u: Tables, c: nat) {
    && (forall k :: k in u.clients <==> k in t.clients && !Gone(t, c, ClientNode(k)))
    && (forall k :: k in u.clients ==>
          && u.clients[k] == t.clients[k].(scopes := u.clients[k].scopes)
          && forall s :: s in u.clients[k].scopes <==> s in t.clients[k].scopes && !Gone(t, c, ScopeNode(s)))
    && (forall m :: m in u.memberships <==> m in t.memberships)
    && (forall m :: m in u.memberships ==>
          && u.memberships[m] == t.memberships[m].(roles := u.memberships[m].roles)
          && forall r :: r in u.memberships[m].roles <==> r in t.memberships[m].roles && !Gone(t, c, RoleNode(r)))
    && (forall k :: k in u.compositions <==> k in t.compositions && k != c)
    && (forall k :: k in u.compositions ==>
          u.compositions[k] == t.compositions[k].(authKey :=
            if t.compositions[k].authKey.Some? && Gone(t, c, AuthKeyNode(t.compositions[k].authKey.value)) then None
            else t.compositions[k].authKey))
  }

  /** So do roles and scopes. */
  ghost predicate GrantsCleared(t: Tables, c: nat, before: map<nat, Grant>, after: map<nat, Grant>, scopes: bool) {
    && (forall g :: g in after <==> g in before && !Gone(t, c, if scopes then ScopeNode(g) else RoleNode(g)))
    && (forall g :: g in after ==>
          && after[g] == before[g].(usedBy := after[g].usedBy)
          && forall i :: i in after[g].usedBy <==> i in before[g].usedBy && !Gone(t, c, InstanceNode(i)))
  }

  /** A deletion takes the rows that go and what the others know of them, and leaves everything else. */
  ghost predicate DeletedAs(t: Tables, u: Tables, c: nat) {
    && Cleared(t, u, c) && GrantsCleared(t, c, t.roles, u.roles, false)
    && GrantsCleared(t, c, t.scopes, u.scopes, true)
    && Rest(t.instances, u.instances, set i | i in t.instances && Gone(t, c, InstanceNode(i)))
    && Rest(t.tokens, u.tokens, set r | r in t.tokens && Gone(t, c, TokenNode(r)))
    && Rest(t.codes, u.codes, set k | k in t.codes && Gone(t, c, DeviceCodeNode(k)))
    && Rest(t.mappings, u.mappings, set q | q in t.mappings && Gone(t, c, MappingNode(q)))
    && Rest(t.aliases, u.aliases, set a | a in t.aliases && Gone(t, c, AliasNode(a)))
    && Rest(t.usedAliases, u.usedAliases, set v | v in t.usedAliases && Gone(t, c, UsedAliasNode(v)))
    && Rest(t.permissions, u.permissions, set q | q in t.permissions && Gone(t, c, PermissionNode(q)))
    && Rest(t.serviceCodes, u.serviceCodes, set k | k in t.serviceCodes && Gone(t, c, ServiceCodeNode(k)))
    && Rest(t.compositionCodes, u.compositionCodes,
            set k | k in t.compositionCodes && Gone(t, c, CompositionCodeNode(k)))
    && Rest(t.authKeys, u.authKeys, set k | k in t.authKeys && Gone(t, c, AuthKeyNode(k)))
    && u == t.(compositions := u.compositions, instances := u.instances, clients := u.clients, tokens := u.tokens,
               codes := u.codes, mappings := u.mappings, aliases := u.aliases, usedAliases := u.usedAliases,
               permissions := u.permissions, roles := u.roles, scopes := u.scopes, memberships := u.memberships,
               serviceCodes := u.serviceCodes, compositionCodes := u.compositionCodes, authKeys := u.authKeys)
  }

  lemma RestOf<K, T>(before: map<K, T>, gone: set<K>)
    ensures Rest(before, before - gone, gone)
  {
  }

  lemma ClientsCleared(t: Tables, c: nat)
    ensures var rows := Delete(t, c).clients;
            && (forall k :: k in rows <==> k in t.clients && !Gone(t, c, ClientNode(k)))
            && (forall k :: k in rows ==>
                  && rows[k] == t.clients[k].(scopes := rows[k].scopes)
                  && forall s :: s in rows[k].scopes <==> s in t.clients[k].scopes && !Gone(t, c, ScopeNode(s)))
  {
    hide GoneInstances, GoneClients, GoneTokens, GoneCodes, GoneMappings, GoneAliases, GoneUsedAliases,
      GonePermissions, GoneServiceCodes, GoneCompositionCodes, GoneAuthKeys, GrantsWithout, MembershipsWithout,
      CompositionsWithout, Holds;
    ScopesGoing(t, c);
  }

  lemma ScopesGoing(t: Tables, c: nat)
    ensures forall s: nat :: s in GoneGrants(t.scopes, GoneInstances(t, c)) <==> Gone(t, c, ScopeNode(s))
    ensures forall r: nat :: r in GoneGrants(t.roles, GoneInstances(t, c)) <==> Gone(t, c, RoleNode(r))
  {
    hide GoneGrants;
  }

  lemma MembershipsCleared(t: Tables, c: nat)
    ensures var rows := Delete(t, c).memberships;
            && (forall m :: m in rows <==> m in t.memberships)
            && (forall m :: m in rows ==>
                  && rows[m] == t.memberships[m].(roles := rows[m].roles)
                  && forall r :: r in rows[m].roles <==> r in t.memberships[m].roles && !Gone(t, c, RoleNode(r)))
  {
    hide GoneInstances, GoneClients, GoneTokens, GoneCodes, GoneMappings, GoneAliases, GoneUsedAliases,
      GonePermissions, GoneServiceCodes, GoneCompositionCodes, GoneAuthKeys, GrantsWithout, ClientsWithout,
      CompositionsWithout, Holds;
    ScopesGoing(t, c);
  }

  lemma CompositionsCleared(t: Tables, c: nat)
    ensures var rows := Delete(t, c).compositions;
            && (forall k :: k in rows <==> k in t.compositions && k != c)
            && (forall k :: k in rows ==>
                  rows[k] == t.compositions[k].(authKey :=
                    if t.compositions[k].authKey.Some? && Gone(t, c, AuthKeyNode(t.compositions[k].authKey.value))
                        then None
                    else t.compositions[k].authKey))
  {
    hide GoneInstances, GoneClients, GoneTokens, GoneCodes, GoneMappings, GoneAliases, GoneUsedAliases,
      GonePermissions, GoneServiceCodes, GoneCompositionCodes, GoneAuthKeys, GrantsWithout, ClientsWithout,
      MembershipsWithout, GoneGrants;
  }

  lemma GrantsClear(t: Tables, c: nat, grants: map<nat, Grant>, scopes: bool)
    requires grants == if scopes then t.scopes else t.roles
    ensures var instances := GoneInstances(t, c);
            GrantsCleared(t, c, grants, GrantsWithout(grants, GoneGrants(grants, instances), instances), scopes)
  {
    hide GoneInstances, GoneGrants, GoneClients, GoneTokens, GoneCodes, GoneMappings, GoneAliases, GoneUsedAliases,
      GonePermissions, GoneServiceCodes, GoneCompositionCodes, GoneAuthKeys;
  }

  lemma DeleteClears(t: Tables, c: nat)
    ensures Cleared(t, Delete(t, c), c)
  {
    hide Gone, Delete;
    ClientsCleared(t, c);
    MembershipsCleared(t, c);
    CompositionsCleared(t, c);
  }

  /** The whole of a deletion, table by table. */
  lemma DeletesExactly(t: Tables, c: nat)
    ensures DeletedAs(t, Delete(t, c), c)
  {
    hide Gone, Cleared, GrantsCleared, Rest, GrantsWithout, ClientsWithout, MembershipsWithout, CompositionsWithout,
      GoneInstances, GoneGrants, GoneClients, GoneTokens, GoneCodes, GoneMappings, GoneAliases, GoneUsedAliases,
      GonePermissions, GoneServiceCodes, GoneCompositionCodes, GoneAuthKeys;
    DeleteClears(t, c);
    GrantsClear(t, c, t.roles, false);
    GrantsClear(t, c, t.scopes, true);
    GoneSets(t, c);
    MoreGoneSets(t, c);
    RestOf(t.instances, GoneInstances(t, c));
    RestOf(t.tokens, GoneTokens(t, c));
    RestOf(t.codes, GoneCodes(t, c));
    RestOf(t.mappings, GoneMappings(t, c));
    RestOf(t.aliases, GoneAliases(t, c));
    RestOf(t.usedAliases, GoneUsedAliases(t, c));
    RestOf(t.permissions, GonePermissions(t, c));
    RestOf(t.serviceCodes, GoneServiceCodes(t, c));
    RestOf(t.compositionCodes, GoneCompositionCodes(t, c));
    RestOf(t.authKeys, GoneAuthKeys(t, c));
  }

  lemma GoneSets(t: Tables, c: nat)
    ensures (set i | i in t.instances && Gone(t, c, InstanceNode(i))) == GoneInstances(t, c)
    ensures (set r | r in t.tokens && Gone(t, c, TokenNode(r))) == GoneTokens(t, c)
    ensures (set k | k in t.codes && Gone(t, c, DeviceCodeNode(k))) == GoneCodes(t, c)
    ensures (set q | q in t.mappings && Gone(t, c, MappingNode(q))) == GoneMappings(t, c)
    ensures (set a | a in t.aliases && Gone(t, c, AliasNode(a))) == GoneAliases(t, c)
  {
    hide GoneGrants, GoneUsedAliases, GonePermissions, GoneServiceCodes, GoneCompositionCodes, GoneAuthKeys,
      GoneClients;
  }

  lemma MoreGoneSets(t: Tables, c: nat)
    ensures (set v | v in t.usedAliases && Gone(t, c, UsedAliasNode(v))) == GoneUsedAliases(t, c)
    ensures (set q | q in t.permissions && Gone(t, c, PermissionNode(q))) == GonePermissions(t, c)
    ensures (set k | k in t.serviceCodes && Gone(t, c, ServiceCodeNode(k))) == GoneServiceCodes(t, c)
    ensures (set k | k in t.compositionCodes && Gone(t, c, CompositionCodeNode(k))) == GoneCompositionCodes(t, c)
    ensures (set k | k in t.authKeys && Gone(t, c, AuthKeyNode(k))) == GoneAuthKeys(t, c)
  {
    hide GoneInstances, GoneClients, GoneGrants, GoneTokens, GoneCodes, GoneMappings, GoneAliases;
  }

  // ---- The deletion as it runs ----------------------------------------------------------------------------------

  /** The ids of each kind among the collected rows. */
  lemma CollectedHolders(t: Tables, c: nat, doomed: set<Node>)
    requires forall n :: n in doomed <==> Gone(t, c, n)
    ensures (set i | i in t.instances && InstanceNode(i) in doomed) == GoneInstances(t, c)
    ensures (set k | k in t.clients && ClientNode(k) in doomed) == GoneClients(t, c)
    ensures (set a | a in t.aliases && AliasNode(a) in doomed) == GoneAliases(t, c)
    ensures (set g | g in t.roles && RoleNode(g) in doomed) == GoneGrants(t.roles, GoneInstances(t, c))
    ensures (set g | g in t.scopes && ScopeNode(g) in doomed) == GoneGrants(t.scopes, GoneInstances(t, c))
    ensures (set k | k in t.authKeys && AuthKeyNode(k) in doomed) == GoneAuthKeys(t, c)
  {
  }

  lemma CollectedLeaves(t: Tables, c: nat, doomed: set<Node>)
    requires forall n :: n in doomed <==> Gone(t, c, n)
    ensures (set r | r in t.tokens && TokenNode(r) in doomed) == GoneTokens(t, c)
    ensures (set p | p in t.mappings && MappingNode(p) in doomed) == GoneMappings(t, c)
    ensures (set v | v in t.usedAliases && UsedAliasNode(v) in doomed) == GoneUsedAliases(t, c)
    ensures (set q | q in t.permissions && PermissionNode(q) in doomed) == GonePermissions(t, c)
    ensures (set k | k in t.codes && DeviceCodeNode(k) in doomed) == GoneCodes(t, c)
    ensures (set k | k in t.serviceCodes && ServiceCodeNode(k) in doomed) == GoneServiceCodes(t, c)
    ensures (set k | k in t.compositionCodes && CompositionCodeNode(k) in doomed) == GoneCompositionCodes(t, c)
  {
  }

  /** `composition.delete()`: collect, then clear links and references, then delete the rows. */
  method DeleteComposition(db: Database, c: nat)
    modifies db
    ensures db.tables == Delete(old(db.tables), c)
  {
    hide Gone, GoneInstances, GoneClients, GoneTokens, GoneMappings, GoneAliases, GoneUsedAliases, GonePermissions,
      GoneGrants, GoneCodes, GoneServiceCodes, GoneCompositionCodes, GoneAuthKeys, GrantsWithout, ClientsWithout,
      MembershipsWithout, CompositionsWithout;
    var t := db.tables;
    var doomed := Collect(t, c);
    CollectedHolders(t, c, doomed);
    CollectedLeaves(t, c, doomed);
    var instances := set i | i in t.instances && InstanceNode(i) in doomed;
    var roles := set g | g in t.roles && RoleNode(g) in doomed;
    var scopes := set g | g in t.scopes && ScopeNode(g) in doomed;
    var authKeys := set k | k in t.authKeys && AuthKeyNode(k) in doomed;
    db.tables := db.tables.(memberships := MembershipsWithout(t.memberships, roles));
    db.tables := db.tables.(compositions := CompositionsWithout(t.compositions, c, authKeys));
    db.tables := db.tables.(clients := ClientsWithout(t.clients, (set k | k in t.clients && ClientNode(k) in doomed),
                                                      scopes));
    db.tables := db.tables.(roles := GrantsWithout(t.roles, roles, instances),
                            scopes := GrantsWithout(t.scopes, scopes, instances));
    db.tables := db.tables.(instances := t.instances - instances, authKeys := t.authKeys - authKeys);
    db.tables := db.tables.(tokens := t.tokens - (set r | r in t.tokens && TokenNode(r) in doomed));
    db.tables := db.tables.(mappings := t.mappings - (set p | p in t.mappings && MappingNode(p) in doomed));
    db.tables := db.tables.(aliases := t.aliases - (set a | a in t.aliases && AliasNode(a) in doomed));
    db.tables := db.tables.(usedAliases := t.usedAliases - (set v | v in t.usedAliases && UsedAliasNode(v) in doomed));
    db.tables := db.tables.(permissions := t.permissions - (set q | q in t.permissions && PermissionNode(q) in doomed));
    db.tables := db.tables.(codes := t.codes - (set k | k in t.codes && DeviceCodeNode(k) in doomed));
    db.tables := db.tables.(serviceCodes := t.serviceCodes - (set k | k in t.serviceCodes
                                                              && ServiceCodeNode(k) in doomed));
    db.tables := db.tables.(compositionCodes := t.compositionCodes - (set k | k in t.compositionCodes
          && CompositionCodeNode(k) in doomed));
  }

  // ---- What the client lifecycle keeps, and what a deletion can break ---------------------------------------------

  lemma FewerClients(t: Tables, c: nat)
    requires SoundRegistry(t)
    ensures SoundRegistry(Delete(t, c))
  {
    hide GoneTokens, GoneAliases, GoneUsedAliases, GonePermissions, GoneCodes, GoneServiceCodes, GoneCompositionCodes,
      GoneAuthKeys, MembershipsWithout, CompositionsWithout, GrantsWithout, GoneGrants, OneApp, UniqueReleases,
      UniqueDevices;
  }

  lemma DeleteKeepsVouchers(t: Tables, c: nat)
    requires SoundVouchers(t)
    ensures SoundVouchers(Delete(t, c))
  {
    hide GoneMappings, GoneAliases, GoneUsedAliases, GonePermissions, GoneServiceCodes, GoneCompositionCodes,
      GoneAuthKeys, MembershipsWithout, CompositionsWithout, GrantsWithout, GoneGrants;
  }

  /** Uniqueness and ownership always survive the deletion. */
  lemma DeleteKeepsSound(t: Tables, c: nat)
    requires Sound(t)
    ensures Sound(Delete(t, c))
  {
    hide SoundRegistry, SoundVouchers;
    FewerClients(t, c);
    DeleteKeepsVouchers(t, c);
  }

  /** Every mapping to an instance that goes is a mapping of a client that goes. */
  ghost predicate SparesMappings(t: Tables, c: nat) {
    forall p :: p in t.mappings && t.mappings[p] in GoneInstances(t, c) ==> p.0 in GoneClients(t, c)
  }

  /** A client that stays keeps its statuses, so it must keep its mappings. */
  lemma StaleAfter(t: Tables, c: nat, p: (nat, string))
    requires StatusesAgree(t) && MappingsOwned(t.mappings, t.clients.Keys)
    requires p in t.mappings && t.mappings[p] in GoneInstances(t, c) && p.0 !in GoneClients(t, c)
    ensures p.0 in Delete(t, c).clients && p !in Delete(t, c).mappings
    ensures p.1 in Delete(t, c).clients[p.0].statuses && Delete(t, c).clients[p.0].statuses[p.1] == Status.Granted
    ensures !StatusesAgree(Delete(t, c))
  {
    hide GoneTokens, GoneAliases, GoneUsedAliases, GonePermissions, GoneCodes, GoneServiceCodes, GoneCompositionCodes,
      GoneAuthKeys, MembershipsWithout, CompositionsWithout, GrantsWithout, GoneGrants, GoneInstances, GoneClients;
    assert (p.0, p.1) in t.mappings && (p.0, p.1) !in Delete(t, c).mappings;
  }

  /** The agreement of statuses and mappings survives exactly when all mappings that go are mappings of clients
      that go. */
  lemma DeleteAgreesExactly(t: Tables, c: nat)
    requires StatusesAgree(t) && MappingsOwned(t.mappings, t.clients.Keys)
    ensures StatusesAgree(Delete(t, c)) <==> SparesMappings(t, c)
  {
    hide GoneTokens, GoneAliases, GoneUsedAliases, GonePermissions, GoneCodes, GoneServiceCodes, GoneCompositionCodes,
      GoneAuthKeys, MembershipsWithout, CompositionsWithout, GrantsWithout, GoneGrants, GoneInstances, GoneClients;
    if p :| p in t.mappings && t.mappings[p] in GoneInstances(t, c) && p.0 !in GoneClients(t, c) {
      StaleAfter(t, c, p);
    }
  }

  /** Every OAuth2 client belongs to a client. */
  ghost predicate Owned(t: Tables) {
    forall o :: o in t.oauthClients ==> exists k :: k in t.clients && t.clients[k].oauthClient == o
  }

  /** The OAuth2 client of a client that goes stays behind without an owner. */
  lemma StrayAfter(t: Tables, c: nat, gone: nat)
    requires OneOwner(t.clients) && ClientsAuthorized(t.clients, t.oauthClients.Keys) && gone in GoneClients(t, c)
    ensures !Owned(Delete(t, c))
  {
    hide GoneTokens, GoneAliases, GoneUsedAliases, GonePermissions, GoneCodes, GoneServiceCodes, GoneCompositionCodes,
      GoneAuthKeys, GoneMappings, MembershipsWithout, CompositionsWithout, GrantsWithout, GoneGrants;
    var u, o := Delete(t, c), t.clients[gone].oauthClient;
    assert o in u.oauthClients && forall k :: k in u.clients ==> u.clients[k].oauthClient != o;
  }

  /** All OAuth2 clients have an owner after the deletion exactly when no client goes. */
  lemma DeleteOwnsExactly(t: Tables, c: nat)
    requires Owned(t) && OneOwner(t.clients) && ClientsAuthorized(t.clients, t.oauthClients.Keys)
    ensures Owned(Delete(t, c)) <==> GoneClients(t, c) == {}
  {
    hide GoneTokens, GoneAliases, GoneUsedAliases, GonePermissions, GoneCodes, GoneServiceCodes, GoneCompositionCodes,
      GoneAuthKeys, GoneMappings, MembershipsWithout, CompositionsWithout, GrantsWithout, GoneGrants;
    var u := Delete(t, c);
    if gone :| gone in GoneClients(t, c) {
      StrayAfter(t, c, gone);
    } else {
      forall o | o in u.oauthClients ensures exists k :: k in u.clients && u.clients[k].oauthClient == o {
        var k :| k in t.clients && t.clients[k].oauthClient == o;
        assert k in u.clients;
      }
    }
  }
}
