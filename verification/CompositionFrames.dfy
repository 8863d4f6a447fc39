/** What applying a composition manifest leaves alone, and what it may change. */
module CompositionFrames {
  import opened Prelude
  import opened Rows
  import opened Compositions
  import opened CompositionLaws
  import opened CompositionTheorems
  import opened Invariants

  // ---- What a list of commands mentions ------------------------------------------------------------------

  predicate Mentions(commands: seq<Command>, command: Command) {
    exists k :: 0 <= k < |commands| && commands[k] == command
  }

  ghost predicate DeploysToken(commands: seq<Command>, token: string) {
    exists r :: Mentions(commands, Deploy(r)) && r.identifier == token
  }

  ghost predicate PointsName(commands: seq<Command>, token: string, name: string) {
    exists alias :: Mentions(commands, PutAlias(token, alias)) && NameOf(alias) == name
  }

  /** Whether an instance with this token is made to use the role, or the scope, with this key. */
  ghost predicate UsesKey(commands: seq<Command>, scopes: bool, token: string, key: string) {
    exists config: RoleConfig ::
        Mentions(commands, if scopes then UseScope(token, config) else UseRole(token, config)) && config.key == key
  }

  // ---- The frames ------------------------------------------------------------------------------------------

  /** Instances stay; each keeps its composition, token, device, key and access lists, and all its columns
      unless the commands deploy it.  New ones are deployed by the commands, without device, key or access lists. */
  ghost predicate InstancesFrame(c: nat, before: map<nat, Instance>, after: map<nat, Instance>,
                                 commands: seq<Command>) {
    && (forall i :: i in before ==>
          && i in after && InstanceKey(after[i]) == InstanceKey(before[i])
          && after[i] == before[i].(steward := after[i].steward, release := after[i].release,
                                    organization := after[i].organization,
                                    template := after[i].template, instanceId := after[i].instanceId)
          && (after[i] != before[i] ==> before[i].composition == c && DeploysToken(commands, before[i].token)))
    && (forall i :: i in after && i !in before ==>
          && after[i].composition == c && DeploysToken(commands, after[i].token)
          && after[i].device.None? && after[i].publicKey.None?
          && after[i].allowedUsers == {} && after[i].deniedUsers == {} && after[i].allowedGroups == {}
             && after[i].deniedGroups == {})
  }

  ghost predicate IsNamed(c: nat, instances: map<nat, Instance>, i: nat, token: string) {
    i in instances && InstanceKey(instances[i]) == (c, token)
  }

  /** Aliases stay, each with its instance and name, and are only changed or added where the commands
      point that name of an instance of the composition. */
  ghost predicate AliasesFrame(c: nat, instances: map<nat, Instance>, before: map<nat, Alias>, after: map<nat, Alias>,
                               commands: seq<Command>) {
    && (forall a :: a in before ==> a in after && AliasKey(after[a]) == AliasKey(before[a]))
    && (forall a :: a in after && (a in before ==> after[a] != before[a]) ==>
          exists token :: IsNamed(c, instances, after[a].instance, token) && PointsName(commands, token, after[a].name))
  }

  /** Roles and scopes stay with their creator and description, users are only added; a new one belongs
      to the organization and is used by the instance that created it. */
  ghost predicate GrantsGrow(organization: nat, before: map<nat, Grant>, after: map<nat, Grant>) {
    && (forall g :: g in before ==>
          && g in after && after[g] == before[g].(usedBy := after[g].usedBy) && before[g].usedBy <= after[g].usedBy)
    && (forall g :: g in after && g !in before ==>
          && after[g].organization == organization
          && after[g].creatingInstance.Some? && after[g].creatingInstance.value in after[g].usedBy)
  }

  predicate IsUser(grants: map<nat, Grant>, g: nat, i: nat) {
    g in grants && i in grants[g].usedBy
  }

  /** New users are instances of the composition that the commands make use the role or scope. */
  ghost predicate NewUsers(p: Place, instances: map<nat, Instance>, before: map<nat, Grant>, after: map<nat, Grant>,
                           scopes: bool, commands: seq<Command>) {
    forall g, i :: IsUser(after, g, i) && !IsUser(before, g, i) ==>
      && after[g].organization == p.organization
      && exists token ::
           IsNamed(p.composition, instances, i, token) && UsesKey(commands, scopes, token, after[g].identifier)
  }

  ghost predicate GrantsFrame(p: Place, instances: map<nat, Instance>, before: map<nat, Grant>, after: map<nat, Grant>,
                              scopes: bool, commands: seq<Command>) {
    GrantsGrow(p.organization, before, after) && NewUsers(p, instances, before, after, scopes, commands)
  }

  ghost predicate Frame(p: Place, t: Tables, u: Tables, commands: seq<Command>) {
    && InstancesFrame(p.composition, t.instances, u.instances, commands)
    && AliasesFrame(p.composition, u.instances, t.aliases, u.aliases, commands)
    && GrantsFrame(p, u.instances, t.roles, u.roles, false, commands)
    && GrantsFrame(p, u.instances, t.scopes, u.scopes, true, commands)
  }

  // ---- One command -------------------------------------------------------------------------------------------

  lemma MentionsMore(before: seq<Command>, last: Command)
    ensures forall command :: Mentions(before, command) ==> Mentions(before + [last], command)
    ensures Mentions(before + [last], last)
  {
    var all := before + [last];
    forall command | Mentions(before, command) ensures Mentions(all, command) {
      var k :| 0 <= k < |before| && before[k] == command;
      assert all[k] == command;
    }
    assert all[|before|] == last;
  }

  /** The instances an earlier frame names keep their names. */
  lemma NamesStay(c: nat, before: map<nat, Instance>, after: map<nat, Instance>, commands: seq<Command>, i: nat,
                  token: string)
    requires InstancesFrame(c, before, after, commands) && IsNamed(c, before, i, token)
    ensures IsNamed(c, after, i, token)
  {
  }

  lemma DeploysMore(before: seq<Command>, last: Command, token: string)
    ensures DeploysToken(before, token) ==> DeploysToken(before + [last], token)
    ensures DeploysToken([last], token) ==> DeploysToken(before + [last], token)
  {
    hide Mentions;
    MentionsMore(before, last);
    if DeploysToken([last], token) {
      var r :| Mentions([last], Deploy(r)) && r.identifier == token;
      OnlyMention(last, Deploy(r));
    }
  }

  lemma OnlyMention(last: Command, command: Command)
    requires Mentions([last], command)
    ensures command == last
  {
  }

  lemma InstancesStep(p: Place, t: map<nat, Instance>, v: map<nat, Instance>, u: map<nat, Instance>,
                      before: seq<Command>, r: InstanceRequest, next: nat, release: nat, i: nat)
    requires InstancesFrame(p.composition, t, v, before)
    requires InstancePlaced(p, v, u, next, release, r.identifier, i)
    ensures InstancesFrame(p.composition, t, u, before + [Deploy(r)])
    ensures InstancesFrame(p.composition, v, u, [Deploy(r)])
  {
    hide InstancesFrame, InstancePlaced, DeploysToken;
    InstancesOnce(p, v, u, r, next, release, i);
    forall token {:trigger DeploysToken(before, token)} {:trigger DeploysToken([Deploy(r)], token)}
      ensures DeploysToken(before, token) || DeploysToken([Deploy(r)], token) ==>
              DeploysToken(before + [Deploy(r)], token)
    {
      DeploysMore(before, Deploy(r), token);
    }
    InstancesCompose(p.composition, t, v, u, before, [Deploy(r)], before + [Deploy(r)]);
  }

  lemma InstancesOnce(p: Place, v: map<nat, Instance>, u: map<nat, Instance>, r: InstanceRequest, next: nat,
                      release: nat, i: nat)
    requires InstancePlaced(p, v, u, next, release, r.identifier, i)
    ensures InstancesFrame(p.composition, v, u, [Deploy(r)])
  {
    hide Having, InstanceUnique, Mentions;
    MentionsMore([], Deploy(r));
    assert [] + [Deploy(r)] == [Deploy(r)];
    assert DeploysToken([Deploy(r)], r.identifier);
    if i in v { RowWith(v, InstanceKey, (p.composition, r.identifier), i); }
  }

  lemma InstancesCompose(c: nat, t: map<nat, Instance>, v: map<nat, Instance>, u: map<nat, Instance>, a: seq<Command>,
                         b: seq<Command>, ab: seq<Command>)
    requires InstancesFrame(c, t, v, a) && InstancesFrame(c, v, u, b)
    requires forall token :: DeploysToken(a, token) || DeploysToken(b, token) ==> DeploysToken(ab, token)
    ensures InstancesFrame(c, t, u, ab)
  {
    hide DeploysToken;
  }

  lemma InstancesUnchanged(c: nat, t: map<nat, Instance>, v: map<nat, Instance>, before: seq<Command>, last: Command)
    requires InstancesFrame(c, t, v, before)
    ensures InstancesFrame(c, t, v, before + [last])
  {
    hide Mentions;
    MentionsMore(before, last);
    assert forall token :: DeploysToken(before, token) ==> DeploysToken(before + [last], token);
  }

  lemma AliasesUnchanged(c: nat, vi: map<nat, Instance>, ui: map<nat, Instance>, t: map<nat, Alias>,
                         v: map<nat, Alias>, before: seq<Command>, last: Command)
    requires AliasesFrame(c, vi, t, v, before) && InstancesFrame(c, vi, ui, [last])
    ensures AliasesFrame(c, ui, t, v, before + [last])
  {
    hide Mentions, InstancesFrame, IsNamed, PointsName;
    forall a | a in v && (a in t ==> v[a] != t[a])
      ensures exists token :: IsNamed(c, ui, v[a].instance, token) && PointsName(before + [last], token, v[a].name)
    {
      var token :| IsNamed(c, vi, v[a].instance, token) && PointsName(before, token, v[a].name);
      NamesStay(c, vi, ui, [last], v[a].instance, token);
      PointsMore(before, last, token, v[a].name);
    }
  }

  lemma PointsMore(before: seq<Command>, last: Command, token: string, name: string)
    requires PointsName(before, token, name)
    ensures PointsName(before + [last], token, name)
  {
    hide Mentions;
    MentionsMore(before, last);
  }

  lemma UsesMore(before: seq<Command>, last: Command, scopes: bool, token: string, key: string)
    requires UsesKey(before, scopes, token, key)
    ensures UsesKey(before + [last], scopes, token, key)
  {
    hide Mentions;
    MentionsMore(before, last);
    var config :| Mentions(before, if scopes then UseScope(token, config) else UseRole(token, config))
        && config.key == key;
    assert Mentions(before + [last], if scopes then UseScope(token, config) else UseRole(token, config));
  }

  lemma SameInstancesFrame(c: nat, v: map<nat, Instance>, commands: seq<Command>)
    ensures InstancesFrame(c, v, v, commands)
  {
  }

  lemma AliasesStep(c: nat, instances: map<nat, Instance>, t: map<nat, Alias>, v: map<nat, Alias>, u: map<nat, Alias>,
                    before: seq<Command>, token: string, alias: StagingAlias, next: nat, i: nat, a: nat)
    requires AliasesFrame(c, instances, t, v, before) && AliasPlaced(v, u, next, i, alias, a)
    requires IsNamed(c, instances, i, token)
    ensures AliasesFrame(c, instances, t, u, before + [PutAlias(token, alias)])
  {
    hide Mentions, IsNamed, PointsName, Having, AliasUnique;
    var last := PutAlias(token, alias);
    if a in v { RowWith(v, AliasKey, (i, NameOf(alias)), a); }
    PointsLast(before, token, alias);
    forall b | b in u && (b in t ==> u[b] != t[b])
      ensures exists k :: IsNamed(c, instances, u[b].instance, k) && PointsName(before + [last], k, u[b].name)
    {
      if b == a {
        assert IsNamed(c, instances, u[b].instance, token);
      } else {
        var k :| IsNamed(c, instances, v[b].instance, k) && PointsName(before, k, v[b].name);
        PointsMore(before, last, k, v[b].name);
      }
    }
  }

  lemma PointsLast(before: seq<Command>, token: string, alias: StagingAlias)
    ensures PointsName(before + [PutAlias(token, alias)], token, NameOf(alias))
  {
    hide Mentions;
    MentionsMore(before, PutAlias(token, alias));
  }

  lemma GrantsUnchanged(p: Place, vi: map<nat, Instance>, ui: map<nat, Instance>, t: map<nat, Grant>,
                        v: map<nat, Grant>, scopes: bool, before: seq<Command>, last: Command)
    requires GrantsFrame(p, vi, t, v, scopes, before) && InstancesFrame(p.composition, vi, ui, [last])
    ensures GrantsFrame(p, ui, t, v, scopes, before + [last])
  {
    hide InstancesFrame, IsNamed, UsesKey, GrantsGrow, IsUser;
    forall g, i | IsUser(v, g, i) && !IsUser(t, g, i)
      ensures g in v && exists token ::
              IsNamed(p.composition, ui, i, token) && UsesKey(before + [last], scopes, token, v[g].identifier)
    {
      UserIn(v, g, i);
      var token :| IsNamed(p.composition, vi, i, token) && UsesKey(before, scopes, token, v[g].identifier);
      NamesStay(p.composition, vi, ui, [last], i, token);
      UsesMore(before, last, scopes, token, v[g].identifier);
    }
  }

  lemma UserIn(grants: map<nat, Grant>, g: nat, i: nat)
    requires IsUser(grants, g, i)
    ensures g in grants
  {
  }

  lemma GrantsStep(p: Place, instances: map<nat, Instance>, t: map<nat, Grant>, v: map<nat, Grant>, u: map<nat, Grant>,
                   scopes: bool, before: seq<Command>, last: Command, token: string, config: RoleConfig, next: nat,
                   i: nat, g: nat)
    requires GrantsFrame(p, instances, t, v, scopes, before) && GrantUsed(v, u, next, p.organization, config, i, g)
    requires IsNamed(p.composition, instances, i, token)
    requires last == if scopes then UseScope(token, config) else UseRole(token, config)
    ensures GrantsFrame(p, instances, t, u, scopes, before + [last])
  {
    hide GrantsGrow, NewUsers, GrantUsed, IsNamed;
    GrantsGrowOn(p.organization, t, v, u, config, next, i, g);
    UsersStep(p, instances, t, v, u, scopes, before, last, token, config, next, i, g);
  }

  lemma GrantsGrowOn(organization: nat, t: map<nat, Grant>, v: map<nat, Grant>, u: map<nat, Grant>, config: RoleConfig,
                     next: nat, i: nat, g: nat)
    requires GrantsGrow(organization, t, v) && GrantUsed(v, u, next, organization, config, i, g)
    ensures GrantsGrow(organization, t, u)
  {
    hide GrantRows;
  }

  lemma UsersStep(p: Place, instances: map<nat, Instance>, t: map<nat, Grant>, v: map<nat, Grant>, u: map<nat, Grant>,
                  scopes: bool, before: seq<Command>, last: Command, token: string, config: RoleConfig, next: nat,
                  i: nat, g: nat)
    requires NewUsers(p, instances, t, v, scopes, before) && GrantUsed(v, u, next, p.organization, config, i, g)
    requires IsNamed(p.composition, instances, i, token)
    requires last == if scopes then UseScope(token, config) else UseRole(token, config)
    ensures NewUsers(p, instances, t, u, scopes, before + [last])
  {
    hide IsNamed, UsesKey, IsUser, GrantUsed;
    UsesLast(before, last, scopes, token, config);
    forall h, j | IsUser(u, h, j) && !IsUser(t, h, j)
      ensures h in u && u[h].organization == p.organization
      ensures exists k ::
                IsNamed(p.composition, instances, j, k) && UsesKey(before + [last], scopes, k, u[h].identifier)
    {
      UserBefore(v, u, p.organization, config, next, i, g, h, j);
      if IsUser(v, h, j) {
        var k :| IsNamed(p.composition, instances, j, k) && UsesKey(before, scopes, k, v[h].identifier);
        UsesMore(before, last, scopes, k, v[h].identifier);
      } else {
        assert IsNamed(p.composition, instances, j, token);
      }
    }
  }

  /** A user after one use was one before, or is the user of that use. */
  lemma UserBefore(v: map<nat, Grant>, u: map<nat, Grant>, organization: nat, config: RoleConfig, next: nat, i: nat,
                   g: nat, h: nat, j: nat)
    requires GrantUsed(v, u, next, organization, config, i, g) && IsUser(u, h, j)
    ensures h in u
    ensures IsUser(v, h, j) ==> h in v && GrantKey(u[h]) == GrantKey(v[h])
    ensures !IsUser(v, h, j) ==> j == i && GrantKey(u[h]) == (organization, config.key)
  {
    hide Having;
    if g in v { RowWith(v, GrantKey, (organization, config.key), g); }
  }

  lemma UsesLast(before: seq<Command>, last: Command, scopes: bool, token: string, config: RoleConfig)
    requires last == if scopes then UseScope(token, config) else UseRole(token, config)
    ensures UsesKey(before + [last], scopes, token, config.key)
  {
    hide Mentions;
    MentionsMore(before, last);
  }

  lemma NamedRow(p: Place, instances: map<nat, Instance>, token: string, i: nat)
    requires InstanceRows(instances, p.composition, token) == {i}
    ensures IsNamed(p.composition, instances, i, token)
  {
    hide Having;
    RowWith(instances, InstanceKey, (p.composition, token), i);
  }

  lemma DeployFrame(p: Place, t: Tables, v: Tables, u: Tables, before: seq<Command>, r: InstanceRequest, x: Written)
    requires Frame(p, t, v, before) && Writes(p, v, u, Deploy(r), x)
    ensures Frame(p, t, u, before + [Deploy(r)])
  {
    hide InstancesFrame, AliasesFrame, GrantsFrame, InstanceRows, InstancePlaced, ServicesGrow, ServiceReleasesGrow,
      Drawn;
    InstancesStep(p, t.instances, v.instances, u.instances, before, r, x.instanceKey, x.release, x.i);
    AliasesUnchanged(p.composition, v.instances, u.instances, t.aliases, v.aliases, before, Deploy(r));
    GrantsUnchanged(p, v.instances, u.instances, t.roles, v.roles, false, before, Deploy(r));
    GrantsUnchanged(p, v.instances, u.instances, t.scopes, v.scopes, true, before, Deploy(r));
  }

  lemma UseFrame(p: Place, t: Tables, v: Tables, u: Tables, before: seq<Command>, last: Command, x: Written)
    requires Frame(p, t, v, before) && Writes(p, v, u, last, x) && (last.UseRole? || last.UseScope?)
    ensures Frame(p, t, u, before + [last])
  {
    hide InstancesFrame, AliasesFrame, GrantsFrame, InstanceRows, GrantUsed, Drawn;
    NamedRow(p, v.instances, last.token, x.user);
    SameInstancesFrame(p.composition, v.instances, [last]);
    InstancesUnchanged(p.composition, t.instances, v.instances, before, last);
    AliasesUnchanged(p.composition, v.instances, v.instances, t.aliases, v.aliases, before, last);
    if last.UseRole? {
      GrantsStep(p, v.instances, t.roles, v.roles, u.roles, false, before, last, last.token, last.config, v.nextId,
                 x.user, x.g);
      GrantsUnchanged(p, v.instances, v.instances, t.scopes, v.scopes, true, before, last);
    } else {
      GrantsStep(p, v.instances, t.scopes, v.scopes, u.scopes, true, before, last, last.token, last.config, v.nextId,
                 x.user, x.g);
      GrantsUnchanged(p, v.instances, v.instances, t.roles, v.roles, false, before, last);
    }
  }

  lemma AliasFrame(p: Place, t: Tables, v: Tables, u: Tables, before: seq<Command>, token: string, alias: StagingAlias,
                   x: Written)
    requires Frame(p, t, v, before) && Writes(p, v, u, PutAlias(token, alias), x)
    ensures Frame(p, t, u, before + [PutAlias(token, alias)])
  {
    hide InstancesFrame, AliasesFrame, GrantsFrame, InstanceRows, AliasPlaced, Drawn;
    var last := PutAlias(token, alias);
    NamedRow(p, v.instances, token, x.owner);
    SameInstancesFrame(p.composition, v.instances, [last]);
    InstancesUnchanged(p.composition, t.instances, v.instances, before, last);
    AliasesStep(p.composition, v.instances, t.aliases, v.aliases, u.aliases, before, token, alias, v.nextId, x.owner,
                x.a);
    GrantsUnchanged(p, v.instances, v.instances, t.roles, v.roles, false, before, last);
    GrantsUnchanged(p, v.instances, v.instances, t.scopes, v.scopes, true, before, last);
  }

  lemma CommandFrame(p: Place, t: Tables, v: Tables, u: Tables, before: seq<Command>, last: Command, x: Written)
    requires Frame(p, t, v, before) && Writes(p, v, u, last, x)
    ensures Frame(p, t, u, before + [last])
  {
    hide *;
    match last
    case Deploy(r) => DeployFrame(p, t, v, u, before, r, x);
    case PutAlias(token, alias) => AliasFrame(p, t, v, u, before, token, alias, x);
    case UseRole(_, _) => UseFrame(p, t, v, u, before, last, x);
    case UseScope(_, _) => UseFrame(p, t, v, u, before, last, x);
  }

  lemma {:induction false} ExecAllFrame(p: Place, t: Tables, commands: seq<Command>)
    requires KeysDrawn(t) && ExecAll(p, t, commands).Ok?
    ensures var u := ExecAll(p, t, commands).value; Frame(p, t, u, commands) && KeysDrawn(u) && t.nextId <= u.nextId
  {
    hide KeysDrawn, Exec, Writes, Frame;
    if commands == [] {
      NothingFramed(p, t);
    } else {
      var n := |commands| - 1;
      var before, last := commands[..n], commands[n];
      ExecAllFrame(p, t, before);
      var v := ExecAll(p, t, before).value;
      var x := ExecWrites(p, v, last);
      CommandFrame(p, t, v, ExecAll(p, t, commands).value, before, last, x);
      assert commands == before + [last];
    }
  }

  lemma NothingFramed(p: Place, t: Tables)
    ensures Frame(p, t, t, [])
  {
  }

  // ---- Where new roles and scopes come from ---------------------------------------------------------------------

  predicate UsesHere(command: Command, scopes: bool, key: string) {
    if scopes then command.UseScope? && command.config.key == key else command.UseRole? && command.config.key == key
  }

  /** The first command that uses the key, if it is the `k`-th. */
  predicate FirstUse(commands: seq<Command>, scopes: bool, key: string, k: int) {
    0 <= k < |commands| && UsesHere(commands[k], scopes, key) && forall j :: 0 <= j < k ==>
      !UsesHere(commands[j], scopes, key)
  }

  /** Created by the instance, and described as in the manifest, where the key is first used. */
  ghost predicate CreatedByFirst(p: Place, instances: map<nat, Instance>, grant: Grant, scopes: bool,
                                 commands: seq<Command>) {
    exists k :: FirstUse(commands, scopes, grant.identifier, k)
                && grant.description == commands[k].config.description
                && grant.creatingInstance.Some?
                   && IsNamed(p.composition, instances, grant.creatingInstance.value, commands[k].token)
  }

  /** Every key that is used has its row, and every new row comes from the first use of its key. */
  ghost predicate Origins(p: Place, instances: map<nat, Instance>, before: map<nat, Grant>, after: map<nat, Grant>,
                          scopes: bool, commands: seq<Command>) {
    && (forall k, key :: 0 <= k < |commands| && UsesHere(commands[k], scopes, key) ==>
          GrantRows(after, p.organization, key) != {})
    && (forall g :: g in after && g !in before ==> CreatedByFirst(p, instances, after[g], scopes, commands))
  }

  lemma FirstUseStays(before: seq<Command>, last: Command, scopes: bool, key: string, k: int)
    requires FirstUse(before, scopes, key, k)
    ensures FirstUse(before + [last], scopes, key, k) && (before + [last])[k] == before[k]
  {
    assert forall j :: 0 <= j < |before| ==> (before + [last])[j] == before[j];
  }

  lemma CreatedStays(p: Place, vi: map<nat, Instance>, ui: map<nat, Instance>, a: Grant, b: Grant, scopes: bool,
                     before: seq<Command>, last: Command)
    requires CreatedByFirst(p, vi, a, scopes, before) && InstancesFrame(p.composition, vi, ui, [last])
    requires b.identifier == a.identifier && b.description == a.description && b.creatingInstance == a.creatingInstance
    ensures CreatedByFirst(p, ui, b, scopes, before + [last])
  {
    hide InstancesFrame, IsNamed;
    var k :| FirstUse(before, scopes, a.identifier, k)
             && a.description == before[k].config.description
             && a.creatingInstance.Some? && IsNamed(p.composition, vi, a.creatingInstance.value, before[k].token);
    FirstUseStays(before, last, scopes, a.identifier, k);
    NamesStay(p.composition, vi, ui, [last], a.creatingInstance.value, before[k].token);
    assert FirstUse(before + [last], scopes, b.identifier, k);
  }

  lemma OriginsUnchanged(p: Place, vi: map<nat, Instance>, ui: map<nat, Instance>, t: map<nat, Grant>,
                         v: map<nat, Grant>, scopes: bool, before: seq<Command>, last: Command)
    requires Origins(p, vi, t, v, scopes, before) && InstancesFrame(p.composition, vi, ui, [last])
    requires forall key :: !UsesHere(last, scopes, key)
    ensures Origins(p, ui, t, v, scopes, before + [last])
  {
    hide InstancesFrame, CreatedByFirst, UsesHere, GrantRows;
    forall g | g in v && g !in t ensures CreatedByFirst(p, ui, v[g], scopes, before + [last]) {
      CreatedStays(p, vi, ui, v[g], v[g], scopes, before, last);
    }
  }

  lemma NewIsFirst(p: Place, instances: map<nat, Instance>, v: map<nat, Grant>, grant: Grant, scopes: bool,
                   before: seq<Command>, last: Command, token: string, config: RoleConfig, i: nat)
    requires last == if scopes then UseScope(token, config) else UseRole(token, config)
    requires IsNamed(p.composition, instances, i, token)
    requires grant == Grant(p.organization, config.key, config.description, Some(i), {i})
    requires forall k :: 0 <= k < |before| ==> !UsesHere(before[k], scopes, config.key)
    ensures CreatedByFirst(p, instances, grant, scopes, before + [last])
  {
    assert forall j :: 0 <= j < |before| ==> (before + [last])[j] == before[j];
    assert FirstUse(before + [last], scopes, grant.identifier, |before|);
  }

  lemma OriginsStep(p: Place, instances: map<nat, Instance>, t: map<nat, Grant>, v: map<nat, Grant>,
                    u: map<nat, Grant>, scopes: bool, before: seq<Command>, last: Command, token: string,
                    config: RoleConfig, next: nat, i: nat, g: nat)
    requires Origins(p, instances, t, v, scopes, before) && GrantUsed(v, u, next, p.organization, config, i, g)
    requires IsNamed(p.composition, instances, i, token)
    requires last == if scopes then UseScope(token, config) else UseRole(token, config)
    ensures Origins(p, instances, t, u, scopes, before + [last])
  {
    hide Having, IsNamed, CreatedByFirst, InstancesFrame;
    SameInstancesFrame(p.composition, instances, [last]);
    forall h | h in u && h !in t ensures CreatedByFirst(p, instances, u[h], scopes, before + [last]) {
      if h in v {
        CreatedStays(p, instances, instances, v[h], u[h], scopes, before, last);
      } else {
        NewIsFirst(p, instances, v, u[h], scopes, before, last, token, config, i);
      }
    }
    RowsStay(v, u, p.organization, config, next, i, g);
  }

  /** A use leaves no key without its rows. */
  lemma RowsStay(v: map<nat, Grant>, u: map<nat, Grant>, organization: nat, config: RoleConfig, next: nat, i: nat,
                 g: nat)
    requires GrantUsed(v, u, next, organization, config, i, g)
    ensures forall key :: GrantRows(v, organization, key) != {} ==> GrantRows(u, organization, key) != {}
  {
    hide Having;
    if g in v { RowWith(v, GrantKey, (organization, config.key), g); }
    Put(v, GrantKey, g, u[g]);
  }

  ghost predicate AllOrigins(p: Place, t: Tables, u: Tables, commands: seq<Command>) {
    Origins(p, u.instances, t.roles, u.roles, false, commands)
        && Origins(p, u.instances, t.scopes, u.scopes, true, commands)
  }

  lemma DeployOrigins(p: Place, t: Tables, v: Tables, u: Tables, before: seq<Command>, r: InstanceRequest, x: Written)
    requires AllOrigins(p, t, v, before) && Writes(p, v, u, Deploy(r), x)
    ensures AllOrigins(p, t, u, before + [Deploy(r)])
  {
    hide Origins, InstancesFrame, InstanceRows, InstancePlaced, ServicesGrow, ServiceReleasesGrow;
    InstancesOnce(p, v.instances, u.instances, r, x.instanceKey, x.release, x.i);
    OriginsUnchanged(p, v.instances, u.instances, t.roles, v.roles, false, before, Deploy(r));
    OriginsUnchanged(p, v.instances, u.instances, t.scopes, v.scopes, true, before, Deploy(r));
  }

  lemma UseOrigins(p: Place, t: Tables, v: Tables, u: Tables, before: seq<Command>, last: Command, x: Written)
    requires AllOrigins(p, t, v, before) && Writes(p, v, u, last, x) && (last.UseRole? || last.UseScope?)
    ensures AllOrigins(p, t, u, before + [last])
  {
    hide Origins, InstancesFrame, InstanceRows, GrantUsed;
    NamedRow(p, v.instances, last.token, x.user);
    SameInstancesFrame(p.composition, v.instances, [last]);
    if last.UseRole? {
      OriginsStep(p, v.instances, t.roles, v.roles, u.roles, false, before, last, last.token, last.config, v.nextId,
                  x.user, x.g);
      OriginsUnchanged(p, v.instances, v.instances, t.scopes, v.scopes, true, before, last);
    } else {
      OriginsStep(p, v.instances, t.scopes, v.scopes, u.scopes, true, before, last, last.token, last.config, v.nextId,
                  x.user, x.g);
      OriginsUnchanged(p, v.instances, v.instances, t.roles, v.roles, false, before, last);
    }
  }

  lemma AliasOrigins(p: Place, t: Tables, v: Tables, u: Tables, before: seq<Command>, token: string,
                     alias: StagingAlias, x: Written)
    requires AllOrigins(p, t, v, before) && Writes(p, v, u, PutAlias(token, alias), x)
    ensures AllOrigins(p, t, u, before + [PutAlias(token, alias)])
  {
    hide Origins, InstancesFrame, InstanceRows, AliasPlaced;
    var last := PutAlias(token, alias);
    SameInstancesFrame(p.composition, v.instances, [last]);
    OriginsUnchanged(p, v.instances, v.instances, t.roles, v.roles, false, before, last);
    OriginsUnchanged(p, v.instances, v.instances, t.scopes, v.scopes, true, before, last);
  }

  lemma CommandOrigins(p: Place, t: Tables, v: Tables, u: Tables, before: seq<Command>, last: Command, x: Written)
    requires AllOrigins(p, t, v, before) && Writes(p, v, u, last, x)
    ensures AllOrigins(p, t, u, before + [last])
  {
    hide *;
    match last
    case Deploy(r) => DeployOrigins(p, t, v, u, before, r, x);
    case PutAlias(token, alias) => AliasOrigins(p, t, v, u, before, token, alias, x);
    case UseRole(_, _) => UseOrigins(p, t, v, u, before, last, x);
    case UseScope(_, _) => UseOrigins(p, t, v, u, before, last, x);
  }

  lemma {:induction false} ExecAllOrigins(p: Place, t: Tables, commands: seq<Command>)
    requires KeysDrawn(t) && ExecAll(p, t, commands).Ok?
    ensures AllOrigins(p, t, ExecAll(p, t, commands).value, commands)
  {
    hide KeysDrawn, Exec, Writes, AllOrigins, Frame;
    if commands == [] {
      NoOrigins(p, t);
    } else {
      var n := |commands| - 1;
      var before, last := commands[..n], commands[n];
      ExecAllOrigins(p, t, before);
      ExecAllFrame(p, t, before);
      var v := ExecAll(p, t, before).value;
      var x := ExecWrites(p, v, last);
      CommandOrigins(p, t, v, ExecAll(p, t, commands).value, before, last, x);
      assert commands == before + [last];
    }
  }

  lemma NoOrigins(p: Place, t: Tables)
    ensures AllOrigins(p, t, t, [])
  {
  }

  lemma SameOrigins(p: Place, t: Tables, v: Tables, u: Tables, commands: seq<Command>)
    requires AllOrigins(p, v, u, commands) && v.roles == t.roles && v.scopes == t.scopes
    ensures AllOrigins(p, t, u, commands)
  {
    hide Origins;
  }

  /** A new role or scope is created by the instance, and described as in the manifest, where its key is first
      used. */
  lemma NewGrantsOrigins(w: Crypto, t: Tables, m: CompositionManifest, organization: nat)
    requires KeysDrawn(t) && organization in t.organizations && Apply(w, t, m, organization).Ok?
    ensures var (u, c) := Apply(w, t, m, organization).value;
            AllOrigins(PlaceOf(t, c, organization), t, u, Commands(m.instances))
  {
    hide KeysDrawn, UpsertComposition, Exec, AllOrigins, ExecAll, Commands, CompositionRows, Described;
    var (t1, c) := UpsertComposition(w, t, m, organization).value;
    UpsertsComposition(w, t, m, organization);
    var p := PlaceOf(t, c, organization);
    ExecAllOrigins(p, t1, Commands(m.instances));
    SameOrigins(p, t, t1, ExecAll(p, t1, Commands(m.instances)).value, Commands(m.instances));
  }

  /** Applying a manifest changes no composition but its own, and no instance, alias, role or scope
      beyond what its commands mention. */
  lemma {:induction false} ManifestFrame(w: Crypto, t: Tables, m: CompositionManifest, organization: nat)
    requires KeysDrawn(t) && organization in t.organizations && Apply(w, t, m, organization).Ok?
    ensures var (u, c) := Apply(w, t, m, organization).value;
            && OnlyCompositions(t, u)
            && (forall o :: o in t.compositions ==>
                  o in u.compositions && CompositionKey(u.compositions[o]) == CompositionKey(t.compositions[o])
                                                    && u.compositions[o].authKey == t.compositions[o].authKey
                                                    && (o != c ==> u.compositions[o] == t.compositions[o]))
            && (forall o :: o in u.compositions && o !in t.compositions ==> o == c && u.compositions[o].authKey.None?)
            && c in u.compositions
            && Frame(PlaceOf(t, c, organization), t, u, Commands(m.instances))
  {
    hide KeysDrawn, UpsertComposition, Exec, Frame, ExecAll, Commands, CompositionRows, Described;
    var (t1, c) := UpsertComposition(w, t, m, organization).value;
    UpsertsComposition(w, t, m, organization);
    ExecAllFrame(PlaceOf(t, c, organization), t1, Commands(m.instances));
    var p, commands := PlaceOf(t, c, organization), Commands(m.instances);
    SameFrame(p, t, t1, ExecAll(p, t1, commands).value, commands);
  }

  lemma SameFrame(p: Place, t: Tables, v: Tables, u: Tables, commands: seq<Command>)
    requires Frame(p, v, u, commands) && v.instances == t.instances && v.aliases == t.aliases && v.roles == t.roles
             && v.scopes == t.scopes
    ensures Frame(p, t, u, commands)
  {
    hide InstancesFrame, AliasesFrame, GrantsFrame;
  }

  /** Other compositions' instances, and their aliases, are as they were. */
  lemma OthersUntouched(p: Place, t: Tables, u: Tables, commands: seq<Command>, i: nat)
    requires Frame(p, t, u, commands) && i in t.instances && t.instances[i].composition != p.composition
    ensures i in u.instances && u.instances[i] == t.instances[i]
    ensures forall a :: a in t.aliases && t.aliases[a].instance == i ==> a in u.aliases && u.aliases[a] == t.aliases[a]
    ensures forall a :: a in u.aliases && u.aliases[a].instance == i ==> a in t.aliases
    ensures forall g :: IsUser(u.roles, g, i) ==> IsUser(t.roles, g, i)
    ensures forall g :: IsUser(u.scopes, g, i) ==> IsUser(t.scopes, g, i)
  {
    hide PointsName, UsesKey, DeploysToken, IsUser;
  }
}
