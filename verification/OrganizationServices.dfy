/** The membership, layer and invite operations as they run: rows change in place, the membership
    signals synchronize the layers, and the tailnet service records what it is sent. */
module OrganizationServices {
  import opened Prelude
  import opened Rows
  import opened Organizations
  import opened OrganizationLaws

  /** ionscale/testing.py: the record of the calls. */
  class Repository {
    var createdTailnets: seq<string>
    var updatedPolicies: seq<Policy>

    constructor ()
      ensures createdTailnets == [] && updatedPolicies == []
    {
      createdTailnets, updatedPolicies := [], [];
    }

    method CreateTailnet(name: string)
      modifies this`createdTailnets
      ensures createdTailnets == old(createdTailnets) + [name]
    {
      createdTailnets := createdTailnets + [name];
    }

    method UpdatePolicy(tailnet: string, subs: set<nat>)
      modifies this`updatedPolicies
      ensures updatedPolicies == old(updatedPolicies) + [Policy(tailnet, subs)]
    {
      updatedPolicies := updatedPolicies + [Policy(tailnet, subs)];
    }
  }

  // ---- Which layers an event touches ---------------------------------------------------------------------------

  lemma MemberTouches(d: Desk, u: Desk, m: nat, organization: nat)
    requires Evolves(d, u) && u.layers == d.layers
    requires (m in d.memberships) != (m in u.memberships)
    requires (if m in d.memberships then d.memberships[m] else u.memberships[m]).organization == organization
    requires forall o :: o != m ==> (o in d.memberships <==> o in u.memberships)
    ensures TouchedLayers(d, u) == LayersOf(u, organization)
  {
    hide InvitesEvolve;
    forall l ensures l in TouchedLayers(d, u) <==> l in LayersOf(u, organization) {
    }
  }

  lemma NobodyTouches(d: Desk, u: Desk)
    requires u.layers == d.layers && u.memberships.Keys == d.memberships.Keys
    ensures TouchedLayers(d, u) == {}
  {
    forall l ensures l !in TouchedLayers(d, u) {
      assert forall m :: m in d.memberships.Keys <==> m in u.memberships.Keys;
    }
  }

  lemma LayerTouches(d: Desk, u: Desk, l: nat)
    requires u.memberships == d.memberships && l !in d.layers && l in u.layers && u.layers == d.layers[l := u.layers[l]]
    ensures TouchedLayers(d, u) == {l}
  {
  }

  lemma NothingSynced(policies: seq<Policy>, d: Desk)
    ensures Synced(policies, policies, d, {})
  {
  }

  lemma MoreSynced(before: seq<Policy>, middle: seq<Policy>, after: seq<Policy>, d: Desk, done: set<nat>, l: nat)
    requires Synced(before, middle, d, done) && l in d.layers && after == middle + [PolicyOf(d, l)]
    ensures Synced(before, after, d, done + {l})
  {
    hide PolicyOf;
    forall i | |before| <= i < |after| ensures SentFor(d, done + {l}, after[i]) {
      if i < |middle| {
        assert SentFor(d, done, middle[i]);
        var k :| k in done && k in d.layers && middle[i] == PolicyOf(d, k);
        assert k in done + {l};
      } else {
        assert l in done + {l} && after[i] == PolicyOf(d, l);
      }
    }
    forall k | k in done + {l} && k in d.layers ensures SentSince(after, |before|, d.layers[k].tailnet) {
      if k in done {
        SentStill(middle, after, |before|, d.layers[k].tailnet);
      } else {
        SentNow(middle, |before|, d, l);
      }
    }
  }

  lemma SentStill(middle: seq<Policy>, after: seq<Policy>, from: nat, tailnet: string)
    requires middle <= after && SentSince(middle, from, tailnet)
    ensures SentSince(after, from, tailnet)
  {
    var i :| from <= i < |middle| && middle[i].tailnet == tailnet;
    assert after[i] == middle[i];
  }

  lemma SentNow(middle: seq<Policy>, from: nat, d: Desk, l: nat)
    requires l in d.layers && from <= |middle|
    ensures SentSince(middle + [PolicyOf(d, l)], from, d.layers[l].tailnet)
  {
    assert (middle + [PolicyOf(d, l)])[|middle|].tailnet == d.layers[l].tailnet;
  }

  lemma OneSynced(before: seq<Policy>, d: Desk, l: nat)
    requires l in d.layers
    ensures Synced(before, before + [PolicyOf(d, l)], d, {l})
  {
    hide PolicyOf, Synced;
    NothingSynced(before, d);
    MoreSynced(before, before, before + [PolicyOf(d, l)], d, {}, l);
    assert {} + {l} == {l};
  }

  /** Setting roles and answering invites changes no policy. */
  lemma SyncedSame(before: seq<Policy>, after: seq<Policy>, d: Desk, u: Desk, layers: set<nat>)
    requires Synced(before, after, d, layers) && u.layers == d.layers
    requires forall o :: Members(u.memberships, o) == Members(d.memberships, o)
    ensures Synced(before, after, u, layers)
  {
    hide Members;
    forall i | |before| <= i < |after| ensures SentFor(u, layers, after[i]) {
      assert SentFor(d, layers, after[i]);
      var l :| l in layers && l in d.layers && after[i] == PolicyOf(d, l);
      assert PolicyOf(u, l) == PolicyOf(d, l);
    }
  }

  lemma SameRoles(d: Desk, u: Desk, invite: Invite)
    requires u.roles == d.roles
    ensures RolesFor(u, invite) == RolesFor(d, invite)
  {
    assert RoleRows(u, "guest", invite.organization) == RoleRows(d, "guest", invite.organization);
  }

  lemma SameUsers(before: map<nat, Membership>, m: nat, row: Membership)
    requires m in before && row.user == before[m].user && row.organization == before[m].organization
    ensures forall o :: Members(before[m := row], o) == Members(before, o)
  {
    var after := before[m := row];
    forall o, x ensures x in Members(after, o) <==> x in Members(before, o) {
      if k :| k in before && before[k].organization == o && before[k].user == x {
        assert after[k].organization == o && after[k].user == x;
      }
    }
  }

  // ---- The operations ---------------------------------------------------------------------------------------------

  class Directory {
    const repository: Repository
    const slug: string -> string
    var desk: Desk

    constructor (repository: Repository, slug: string -> string, desk: Desk)
      ensures this.repository == repository && this.slug == slug && this.desk == desk
    {
      this.repository := repository;
      this.slug := slug;
      this.desk := desk;
    }

    ghost function View(): World
      reads this, repository
    {
      World(desk, repository.updatedPolicies, repository.createdTailnets)
    }

    /** `sync`: the organization's members become the policy of the layer's tailnet. */
    method Sync(l: nat)
      requires l in desk.layers
      modifies repository`updatedPolicies
      ensures repository.updatedPolicies == old(repository.updatedPolicies) + [PolicyOf(desk, l)]
    {
      var layer := desk.layers[l];
      var members := set m | m in desk.memberships && desk.memberships[m].organization == layer.organization;
      var subs: set<nat> := {};
      while members != {}
        invariant members <= set m | m in desk.memberships && desk.memberships[m].organization == layer.organization
        invariant subs == set m | m in desk.memberships && desk.memberships[m].organization == layer.organization
                  && m !in members
                                :: desk.memberships[m].user
        decreases members
      {
        var m :| m in members;
        subs := subs + {desk.memberships[m].user};
        members := members - {m};
      }
      assert subs == Members(desk.memberships, layer.organization);
      repository.UpdatePolicy(layer.tailnet, subs);
    }

    /** `sync_organization_layers`. */
    method SyncOrganizationLayers(organization: nat)
      modifies repository`updatedPolicies
      ensures Synced(old(repository.updatedPolicies), repository.updatedPolicies, desk, LayersOf(desk, organization))
    {
      hide Members, Synced;
      ghost var before := repository.updatedPolicies;
      var rest := LayersOf(desk, organization);
      NothingSynced(before, desk);
      assert LayersOf(desk, organization) - rest == {};
      while rest != {}
        invariant rest <= LayersOf(desk, organization)
        invariant Synced(before, repository.updatedPolicies, desk, LayersOf(desk, organization) - rest)
        decreases rest
      {
        var l :| l in rest;
        ghost var middle := repository.updatedPolicies;
        Sync(l);
        MoreSynced(before, middle, repository.updatedPolicies, desk, LayersOf(desk, organization) - rest, l);
        assert (LayersOf(desk, organization) - rest) + {l} == LayersOf(desk, organization) - (rest - {l});
        rest := rest - {l};
      }
      assert LayersOf(desk, organization) - {} == LayersOf(desk, organization);
    }

    /** `Membership.objects.create`, and its post-save signal. */
    method CreateMembership(user: nat, organization: nat) returns (r: Result<nat, Problem>)
      requires Good(desk)
      modifies this, repository
      ensures Next(slug, old(View()), Join(user, organization), View())
      ensures r == After(slug, old(desk), Join(user, organization)).result
    {
      hide Good, Synced, Members, MembershipRows, Touched, Evolves;
      ghost var d := desk;
      AfterKeeps(slug, desk, Join(user, organization));
      r := InsertMembership(user, organization, None);
      if r.Ok? {
        SyncOrganizationLayers(organization);
        NewRow(d);
        MemberTouches(d, desk, r.value, organization);
      } else {
        NobodyTouches(d, desk);
        NothingSynced(repository.updatedPolicies, desk);
      }
    }

    method InsertMembership(user: nat, organization: nat, through: Option<nat>) returns (r: Result<nat, Problem>)
      modifies this`desk
      ensures Outcome(desk, r) == AfterJoin(old(desk), user, organization, through)
    {
      if MembershipRows(desk, user, organization) != {} {
        return Err(AlreadyMember);
      }
      var m := desk.nextId;
      desk := desk.(nextId := m + 1, memberships := desk.memberships[m := Membership(user, organization, {}, through)]);
      return Ok(m);
    }

    /** `membership.delete()`, and its post-delete signal. */
    method DeleteMembership(m: nat) returns (r: Result<nat, Problem>)
      requires Good(desk)
      modifies this, repository
      ensures Next(slug, old(View()), Leave(m), View())
      ensures r == After(slug, old(desk), Leave(m)).result
    {
      hide Good, Synced, Members, Touched, Evolves;
      ghost var d := desk;
      AfterKeeps(slug, desk, Leave(m));
      if m !in desk.memberships {
        NobodyTouches(d, desk);
        NothingSynced(repository.updatedPolicies, desk);
        return Err(UnknownId);
      }
      var organization := desk.memberships[m].organization;
      desk := desk.(memberships := desk.memberships - {m});
      SyncOrganizationLayers(organization);
      MemberTouches(d, desk, m, organization);
      return Ok(m);
    }

    /** `create_ionscale_layer`: the tailnet is created before the row, whose name must be new. */
    method CreateIonscaleLayer(organization: nat, name: string) returns (r: Result<nat, Problem>)
      requires Good(desk)
      modifies this, repository
      ensures Next(slug, old(View()), CreateLayer(organization, name), View())
      ensures r == After(slug, old(desk), CreateLayer(organization, name)).result
    {
      hide Good, Synced, Members, Touched, Evolves, TailnetExists, TailnetName;
      ghost var d := desk;
      NewRow(d);
      NobodyTouches(d, desk);
      NothingSynced(repository.updatedPolicies, desk);
      if organization !in desk.labels {
        return Err(UnknownId);
      }
      var tailnet := TailnetName(slug, desk.labels[organization], name);
      repository.CreateTailnet(tailnet);
      if TailnetExists(desk, tailnet) {
        return Err(TailnetTaken);
      }
      var l := desk.nextId;
      desk := desk.(nextId := l + 1, layers := desk.layers[l := Layer(organization, tailnet)]);
      OneSynced(repository.updatedPolicies, desk, l);
      Sync(l);
      LayerTouches(d, desk, l);
      return Ok(l);
    }

    /** `create_invite`. */
    method CreateInvite(organization: nat, creator: nat, days: Option<int>, names: seq<string>, token: string,
                        now: int) returns (r: Result<nat, Problem>)
      requires Good(desk)
      modifies this`desk
      ensures Next(slug, old(View()), Event.CreateInvite(organization, creator, days, names, token, now), View())
      ensures r == After(slug, old(desk), Event.CreateInvite(organization, creator, days, names, token, now)).result
    {
      hide Good, Synced, Members, Touched, Evolves;
      ghost var d := desk;
      NothingSynced(repository.updatedPolicies, desk);
      NobodyTouches(d, desk);
      if organization !in desk.labels {
        return Err(UnknownId);
      }
      var expiresAt := None;
      if days.Some? && days.value != 0 {
        expiresAt := Some(now + days.value * 86400);
      }
      if InviteRows(desk, token) != {} {
        return Err(TokenTaken);
      }
      var k := desk.nextId;
      var invite := Invite(token, creator, organization, expiresAt, Pending, None, None, None, {});
      var wanted := if names != [] then names else ["guest"];
      var roles, raised := CollectRoles(organization, wanted);
      desk := desk.(nextId := k + 1, invites := desk.invites[k := invite.(roles := roles)]);
      NobodyTouches(d, desk);
      NothingSynced(repository.updatedPolicies, desk);
      return if raised then Err(AmbiguousRow) else Ok(k);
    }

    /** The loop over role identifiers; an unknown one is passed over. */
    method CollectRoles(organization: nat, names: seq<string>) returns (roles: set<nat>, raised: bool)
      ensures (roles, raised) == NamedRoles(desk, organization, names)
    {
      roles, raised := {}, false;
      for i := 0 to |names|
        invariant (roles, false) == NamedRoles(desk, organization, names[..i])
      {
        assert names[..i + 1][..i] == names[..i];
        match Get(RoleRows(desk, names[i], organization)) {
          case Found(role) =>
            roles := roles + {role};
          case Missing =>
          case Many =>
            RaisedEarly(desk, organization, names, i + 1, roles);
            return roles, true;
        }
      }
      assert names[..|names|] == names;
    }

    /** `accept_invite`. */
    method AcceptInvite(token: string, user: nat, now: int) returns (r: Result<nat, Problem>)
      requires Good(desk)
      modifies this, repository
      ensures Next(slug, old(View()), Event.AcceptInvite(token, user, now), View())
      ensures r == After(slug, old(desk), Event.AcceptInvite(token, user, now)).result
    {
      hide Good, Synced, Members, Touched, Evolves, Accept, InviteRows, MembershipRows, First;
      NobodyTouches(desk, desk);
      NothingSynced(repository.updatedPolicies, desk);
      match Get(InviteRows(desk, token)) {
        case Missing =>
          return Err(UnknownToken);
        case Many =>
          return Err(AmbiguousRow);
        case Found(k) =>
          InviteAt(desk, token, k);
          AcceptKeeps(desk, k, user, now);
          r := AcceptFound(k, user, now);
      }
    }

    method AcceptFound(k: nat, user: nat, now: int) returns (r: Result<nat, Problem>)
      requires Good(desk) && k in desk.invites && Evolves(desk, Accept(desk, k, user, now).desk)
      modifies this, repository
      ensures Outcome(desk, r) == Accept(old(desk), k, user, now)
      ensures Synced(old(repository.updatedPolicies), repository.updatedPolicies, desk, TouchedLayers(old(desk), desk))
      ensures repository.createdTailnets == old(repository.createdTailnets)
    {
      hide Good, Synced, Members, Touched, Evolves, MembershipRows, RolesFor, First;
      ghost var d, policies := desk, repository.updatedPolicies;
      NothingSynced(policies, desk);
      NobodyTouches(d, desk);
      GuestIsOne(desk, desk.invites[k]);
      NewRow(d);
      var invite := desk.invites[k];
      if !IsValid(invite, now) {
        return Err(Refusal(invite));
      }
      match First(MembershipRows(desk, user, invite.organization)) {
        case Some(m) =>
          desk := desk.(invites := desk.invites[k := Answered(invite, user, now)]);
          NobodyTouches(d, desk);
          NothingSynced(policies, desk);
          return Ok(m);
        case None =>
          var joined := InsertMembership(user, invite.organization, Some(k));
          var m := joined.value;
          SyncOrganizationLayers(invite.organization);
          ghost var before := desk;
          SameRoles(d, desk, invite);
          var roles := RolesFor(desk, invite).value;
          desk := desk.(memberships := desk.memberships[m := desk.memberships[m].(roles := roles)]);
          desk := desk.(invites := desk.invites[k := Answered(invite, user, now)]);
          SameUsers(before.memberships, m, before.memberships[m].(roles := roles));
          SyncedSame(policies, repository.updatedPolicies, before, desk, LayersOf(before, invite.organization));
          MemberTouches(d, desk, m, invite.organization);
          return Ok(m);
      }
    }

    /** `decline_invite`. */
    method DeclineInvite(token: string, user: nat, now: int) returns (r: Result<nat, Problem>)
      modifies this`desk
      ensures Next(slug, old(View()), Event.DeclineInvite(token, user, now), View())
      ensures r == After(slug, old(desk), Event.DeclineInvite(token, user, now)).result
    {
      hide Synced, Members, Touched, InviteRows, First;
      NobodyTouches(desk, desk);
      NothingSynced(repository.updatedPolicies, desk);
      match Get(InviteRows(desk, token)) {
        case Missing =>
          return Err(UnknownToken);
        case Many =>
          return Err(AmbiguousRow);
        case Found(k) =>
          InviteAt(desk, token, k);
          var invite := desk.invites[k];
          if invite.status != Pending {
            return Err(AlreadyAnswered(invite.status));
          }
          ghost var d := desk;
          desk := desk.(invites := desk.invites[k := invite.(status := Declined, declinedBy := Some(user),
                                                             respondedAt := Some(now))]);
          NobodyTouches(d, desk);
          NothingSynced(repository.updatedPolicies, desk);
          return Ok(k);
      }
    }

    /** `cancel_invite`: its creator only. */
    method CancelInvite(id: nat, user: nat) returns (r: Result<nat, Problem>)
      modifies this`desk
      ensures Next(slug, old(View()), Event.CancelInvite(id, user), View())
      ensures r == After(slug, old(desk), Event.CancelInvite(id, user)).result
    {
      hide Synced, Members, Touched;
      NobodyTouches(desk, desk);
      NothingSynced(repository.updatedPolicies, desk);
      if id !in desk.invites {
        return Err(UnknownId);
      }
      var invite := desk.invites[id];
      if invite.createdBy != user {
        return Err(NotTheCreator);
      }
      if invite.status != Pending {
        return Err(AlreadyAnswered(invite.status));
      }
      ghost var d := desk;
      desk := desk.(invites := desk.invites[id := invite.(status := Cancelled)]);
      NobodyTouches(d, desk);
      NothingSynced(repository.updatedPolicies, desk);
      return Ok(id);
    }
  }

  /** The next key is no row's key yet. */
  lemma NewRow(d: Desk)
    requires Good(d)
    ensures d.nextId !in d.memberships && d.nextId !in d.layers && d.nextId !in d.invites
  {
  }

  lemma {:induction false} RaisedEarly(d: Desk, organization: nat, names: seq<string>, n: nat, roles: set<nat>)
    requires n <= |names| && NamedRoles(d, organization, names[..n]) == (roles, true)
    ensures NamedRoles(d, organization, names) == (roles, true)
  {
    if n == |names| {
      assert names[..n] == names;
    } else {
      assert names[..|names| - 1][..n] == names[..n];
      RaisedEarly(d, organization, names[..|names| - 1], n, roles);
    }
  }
}
