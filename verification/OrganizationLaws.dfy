/** What every run of completed operations guarantees: policies in step with the memberships, and
    invites that are answered once. */
module OrganizationLaws {
  import opened Prelude
  import opened Rows
  import opened Organizations

  // ---- The invariant -----------------------------------------------------------------------------------------

  ghost predicate Drawn<T>(rows: map<nat, T>, next: nat) {
    forall id :: id in rows ==> id < next
  }

  /** At most one membership for a user and an organization. */
  ghost predicate UniquePairs(rows: map<nat, Membership>) {
    forall a, b | a in rows && b in rows && rows[a].user == rows[b].user
      && rows[a].organization == rows[b].organization :: a == b
  }

  ghost predicate UniqueTailnets(rows: map<nat, Layer>) {
    forall a, b | a in rows && b in rows && rows[a].tailnet == rows[b].tailnet :: a == b
  }

  ghost predicate UniqueInvites(rows: map<nat, Invite>) {
    forall a, b | a in rows && b in rows && rows[a].token == rows[b].token :: a == b
  }

  ghost predicate UniqueRoles(rows: map<nat, Grant>) {
    forall a, b | a in rows && b in rows && rows[a].identifier == rows[b].identifier
                  && rows[a].organization == rows[b].organization :: a == b
  }

  /** A membership came through an invite only if that invite was accepted, and no two came through one. */
  ghost predicate Through(memberships: map<nat, Membership>, invites: map<nat, Invite>) {
    && (forall m :: m in memberships && memberships[m].createdThrough.Some? ==>
          memberships[m].createdThrough.value in invites
              && invites[memberships[m].createdThrough.value].status == Accepted)
    && (forall a, b | a in memberships && b in memberships && memberships[a].createdThrough.Some?
                      && memberships[a].createdThrough == memberships[b].createdThrough :: a == b)
  }

  ghost predicate Good(d: Desk) {
    && Drawn(d.memberships, d.nextId) && Drawn(d.invites, d.nextId) && Drawn(d.layers, d.nextId)
    && UniquePairs(d.memberships) && UniqueTailnets(d.layers) && UniqueInvites(d.invites) && UniqueRoles(d.roles)
    && Through(d.memberships, d.invites)
  }

  predicate IsLast(policies: seq<Policy>, tailnet: string, i: int) {
    0 <= i < |policies| && policies[i].tailnet == tailnet && forall j :: i < j < |policies| ==>
      policies[j].tailnet != tailnet
  }

  ghost predicate LastAdmits(policies: seq<Policy>, tailnet: string, subs: set<nat>) {
    exists i :: IsLast(policies, tailnet, i) && policies[i].subs == subs
  }

  /** The last policy sent for every layer admits exactly its organization's members. */
  ghost predicate InStep(w: World) {
    forall l :: l in w.desk.layers ==>
      LastAdmits(w.policies, w.desk.layers[l].tailnet, Members(w.desk.memberships, w.desk.layers[l].organization))
  }

  /** The runs can start from any organizations, without members, invites or layers. */
  lemma StartsInStep(d: Desk)
    requires d.memberships == map[] && d.invites == map[] && d.layers == map[] && UniqueRoles(d.roles)
    ensures Good(d) && InStep(World(d, [], []))
  {
  }

  // ---- What each event changes -----------------------------------------------------------------------------------

  /** An invite's answer is final, and what it was issued for never changes. */
  predicate InviteEvolves(a: Invite, b: Invite) {
    && b.token == a.token && b.createdBy == a.createdBy && b.organization == a.organization
    && b.expiresAt == a.expiresAt && b.roles == a.roles
    && (a.status != Pending ==> b == a)
  }

  ghost predicate InvitesEvolve(before: map<nat, Invite>, after: map<nat, Invite>) {
    forall k :: k in before ==> k in after && InviteEvolves(before[k], after[k])
  }

  /** Rows that stay are as they were; at most one membership is new. */
  ghost predicate MembershipsEvolve(before: map<nat, Membership>, after: map<nat, Membership>) {
    && (forall m :: m in before && m in after ==> after[m] == before[m])
    && (forall a, b | a in after && b in after && a !in before && b !in before :: a == b)
  }

  ghost predicate LayersEvolve(before: map<nat, Layer>, after: map<nat, Layer>) {
    forall l :: l in before ==> l in after && after[l] == before[l]
  }

  ghost predicate Evolves(d: Desk, u: Desk) {
    && d.nextId <= u.nextId && u.roles == d.roles && u.labels == d.labels
    && InvitesEvolve(d.invites, u.invites) && MembershipsEvolve(d.memberships, u.memberships)
       && LayersEvolve(d.layers, u.layers)
  }

  lemma JoinKeeps(d: Desk, user: nat, organization: nat)
    requires Good(d)
    ensures Good(AfterJoin(d, user, organization, None).desk) && Evolves(d, AfterJoin(d, user, organization, None).desk)
  {
    NoSuchMember(d, user, organization);
  }

  lemma NoSuchMember(d: Desk, user: nat, organization: nat)
    ensures MembershipRows(d, user, organization) == {} ==>
              forall m :: m in d.memberships ==>
                !(d.memberships[m].user == user && d.memberships[m].organization == organization)
  {
    assert forall m | && m in d.memberships && d.memberships[m].user == user
                      && d.memberships[m].organization == organization
      :: m in MembershipRows(d, user, organization);
  }

  lemma LeaveKeeps(d: Desk, m: nat)
    requires Good(d)
    ensures Good(AfterLeave(d, m).desk) && Evolves(d, AfterLeave(d, m).desk)
  {
  }

  lemma LayerKeeps(slug: string -> string, d: Desk, organization: nat, name: string)
    requires Good(d)
    ensures Good(AfterCreateLayer(slug, d, organization, name).desk)
            && Evolves(d, AfterCreateLayer(slug, d, organization, name).desk)
  {
    hide TailnetName;
  }

  lemma InviteAdded(d: Desk, row: Invite)
    requires Good(d) && InviteRows(d, row.token) == {}
    ensures var u := d.(nextId := d.nextId + 1, invites := d.invites[d.nextId := row]); Good(u) && Evolves(d, u)
  {
    hide UniquePairs, UniqueTailnets, UniqueRoles;
    assert forall i :: i in d.invites && d.invites[i].token == row.token ==> i in InviteRows(d, row.token);
  }

  lemma CreateInviteKeeps(d: Desk, e: Event)
    requires Good(d) && e.CreateInvite?
    ensures Good(AfterCreateInvite(d, e).desk) && Evolves(d, AfterCreateInvite(d, e).desk)
  {
    hide NamedRoles, Good, Evolves, InviteRows;
    NothingKeeps(d);
    var u := AfterCreateInvite(d, e).desk;
    if u != d { InviteAdded(d, u.invites[d.nextId]); }
  }

  lemma InviteAt(d: Desk, token: string, k: nat)
    requires InviteRows(d, token) == {k}
    ensures k in d.invites && d.invites[k].token == token
  {
    assert k in InviteRows(d, token);
  }

  /** Writing an invite that is not pending any more. */
  lemma AnswerKeeps(d: Desk, k: nat, row: Invite)
    requires Good(d) && k in d.invites && d.invites[k].status == Pending && InviteEvolves(d.invites[k], row)
    ensures Good(d.(invites := d.invites[k := row])) && Evolves(d, d.(invites := d.invites[k := row]))
  {
  }

  /** A new member through a pending invite that is accepted with it. */
  lemma MemberKeeps(d: Desk, k: nat, row: Invite, member: Membership)
    requires Good(d) && k in d.invites && d.invites[k].status == Pending && InviteEvolves(d.invites[k], row)
             && row.status == Accepted
    requires MembershipRows(d, member.user, member.organization) == {} && member.createdThrough == Some(k)
    ensures var u := d.(nextId := d.nextId + 1, memberships := d.memberships[d.nextId := member],
                        invites := d.invites[k := row]);
            Good(u) && Evolves(d, u)
  {
    NoSuchMember(d, member.user, member.organization);
  }

  lemma AcceptKeeps(d: Desk, k: nat, user: nat, now: int)
    requires Good(d) && k in d.invites
    ensures Good(Accept(d, k, user, now).desk) && Evolves(d, Accept(d, k, user, now).desk)
  {
    hide Good, Evolves, MembershipRows, RolesFor;
    var invite := d.invites[k];
    NothingKeeps(d);
    GuestIsOne(d, invite);
    if IsValid(invite, now) {
      var row := Answered(invite, user, now);
      if First(MembershipRows(d, user, invite.organization)).Some? {
        AnswerKeeps(d, k, row);
      } else {
        var member := Membership(user, invite.organization, RolesFor(d, invite).value, Some(k));
        MemberKeeps(d, k, row, member);
        var joined := AfterJoin(d, user, invite.organization, Some(k)).desk;
        assert joined.memberships[d.nextId := member] == d.memberships[d.nextId := member];
      }
    }
  }

  lemma NothingKeeps(d: Desk)
    requires Good(d)
    ensures Evolves(d, d)
  {
  }

  /** Roles are unique, so the guest look-up never raises. */
  lemma GuestIsOne(d: Desk, invite: Invite)
    requires Good(d)
    ensures RolesFor(d, invite).Ok?
  {
    hide UniquePairs, UniqueTailnets, UniqueInvites, Through, Drawn;
  }

  lemma AfterAcceptKeeps(d: Desk, token: string, user: nat, now: int)
    requires Good(d)
    ensures Good(AfterAccept(d, token, user, now).desk) && Evolves(d, AfterAccept(d, token, user, now).desk)
  {
    hide Good, Evolves, Accept, InviteRows, First;
    NothingKeeps(d);
    match Get(InviteRows(d, token))
    case Found(k) => InviteAt(d, token, k); AcceptKeeps(d, k, user, now);
    case _ =>
  }

  lemma DeclineKeeps(d: Desk, token: string, user: nat, now: int)
    requires Good(d)
    ensures Good(AfterDecline(d, token, user, now).desk) && Evolves(d, AfterDecline(d, token, user, now).desk)
  {
    hide Good, Evolves, InviteRows, First;
    NothingKeeps(d);
    match Get(InviteRows(d, token))
    case Found(k) =>
      InviteAt(d, token, k);
      if d.invites[k].status == Pending {
        AnswerKeeps(d, k, d.invites[k].(status := Declined, declinedBy := Some(user), respondedAt := Some(now)));
      }
    case _ =>
  }

  lemma CancelKeeps(d: Desk, k: nat, user: nat)
    requires Good(d)
    ensures Good(AfterCancel(d, k, user).desk) && Evolves(d, AfterCancel(d, k, user).desk)
  {
    hide Good, Evolves;
    NothingKeeps(d);
    if k in d.invites && d.invites[k].createdBy == user && d.invites[k].status == Pending {
      AnswerKeeps(d, k, d.invites[k].(status := Cancelled));
    }
  }

  lemma AfterKeeps(slug: string -> string, d: Desk, e: Event)
    requires Good(d)
    ensures Good(After(slug, d, e).desk) && Evolves(d, After(slug, d, e).desk)
  {
    hide Good, Evolves, AfterJoin, AfterLeave, AfterCreateLayer, AfterCreateInvite, AfterAccept, AfterDecline,
      AfterCancel;
    match e
    case Join(user, organization) => JoinKeeps(d, user, organization);
    case Leave(m) => LeaveKeeps(d, m);
    case CreateLayer(organization, name) => LayerKeeps(slug, d, organization, name);
    case CreateInvite(_, _, _, _, _, _) => CreateInviteKeeps(d, e);
    case AcceptInvite(token, user, now) => AfterAcceptKeeps(d, token, user, now);
    case DeclineInvite(token, user, now) => DeclineKeeps(d, token, user, now);
    case CancelInvite(id, user) => CancelKeeps(d, id, user);
  }

  // ---- Policies -------------------------------------------------------------------------------------------------

  lemma {:induction false} LastAfter(policies: seq<Policy>, tailnet: string, i: int) returns (last: int)
    requires 0 <= i < |policies| && policies[i].tailnet == tailnet
    ensures IsLast(policies, tailnet, last) && i <= last
    decreases |policies| - i
  {
    if j :| i < j < |policies| && policies[j].tailnet == tailnet {
      last := LastAfter(policies, tailnet, j);
    } else {
      last := i;
    }
  }

  /** A synchronized layer's last policy lists its members; another layer's last policy is the same as before. */
  lemma SyncedLayer(before: seq<Policy>, after: seq<Policy>, d: Desk, layers: set<nat>, l: nat)
    requires Synced(before, after, d, layers) && UniqueTailnets(d.layers) && l in d.layers && l in layers
    ensures LastAdmits(after, d.layers[l].tailnet, Members(d.memberships, d.layers[l].organization))
  {
    hide Members;
    var i :| |before| <= i < |after| && after[i].tailnet == d.layers[l].tailnet;
    var last := LastAfter(after, d.layers[l].tailnet, i);
    assert SentFor(d, layers, after[last]);
    var k :| k in layers && k in d.layers && after[last] == PolicyOf(d, k);
    assert k == l;
  }

  lemma OtherLayer(before: seq<Policy>, after: seq<Policy>, d: Desk, layers: set<nat>, l: nat, subs: set<nat>)
    requires Synced(before, after, d, layers) && UniqueTailnets(d.layers) && l in d.layers && l !in layers
    requires LastAdmits(before, d.layers[l].tailnet, subs)
    ensures LastAdmits(after, d.layers[l].tailnet, subs)
  {
    hide Members;
    var tailnet := d.layers[l].tailnet;
    var i :| IsLast(before, tailnet, i) && before[i].subs == subs;
    assert before <= after;
    forall j | i < j < |after| ensures after[j].tailnet != tailnet {
      if j < |before| {
        assert after[j] == before[j];
      } else {
        assert SentFor(d, layers, after[j]);
        var k :| k in layers && k in d.layers && after[j] == PolicyOf(d, k);
        assert k != l;
      }
    }
    assert after[i] == before[i];
    assert IsLast(after, tailnet, i);
  }

  /** An untouched layer's organization has the members it had. */
  lemma SameMembers(d: Desk, u: Desk, l: nat)
    requires Evolves(d, u) && l in d.layers && l in u.layers && !Touched(d, u, l)
    ensures u.layers[l] == d.layers[l]
    ensures Members(u.memberships, u.layers[l].organization) == Members(d.memberships, d.layers[l].organization)
  {
    hide InvitesEvolve;
    var o := d.layers[l].organization;
    forall x ensures x in Members(u.memberships, o) <==> x in Members(d.memberships, o) {
      if x in Members(u.memberships, o) {
        var m :| m in u.memberships && u.memberships[m].organization == o && u.memberships[m].user == x;
        assert m in d.memberships;
      }
      if x in Members(d.memberships, o) {
        var m :| m in d.memberships && d.memberships[m].organization == o && d.memberships[m].user == x;
        assert m in u.memberships;
      }
    }
  }

  lemma NextKeeps(slug: string -> string, v: World, e: Event, w: World)
    requires Good(v.desk) && InStep(v) && Next(slug, v, e, w)
    ensures Good(w.desk) && InStep(w) && Evolves(v.desk, w.desk)
  {
    hide After, Members, Synced, Touched, LastAdmits, Evolves;
    AfterKeeps(slug, v.desk, e);
    Tailnets(w.desk);
    forall l | l in w.desk.layers
      ensures LastAdmits(w.policies, w.desk.layers[l].tailnet,
                         Members(w.desk.memberships, w.desk.layers[l].organization))
    {
      if Touched(v.desk, w.desk, l) {
        SyncedLayer(v.policies, w.policies, w.desk, TouchedLayers(v.desk, w.desk), l);
      } else {
        UntouchedIsOld(v.desk, w.desk, l);
        SameMembers(v.desk, w.desk, l);
        OtherLayer(v.policies, w.policies, w.desk, TouchedLayers(v.desk, w.desk), l,
                   Members(v.desk.memberships, v.desk.layers[l].organization));
      }
    }
  }

  lemma Tailnets(d: Desk)
    requires Good(d)
    ensures UniqueTailnets(d.layers)
  {
  }

  lemma UntouchedIsOld(d: Desk, u: Desk, l: nat)
    requires l in u.layers && !Touched(d, u, l)
    ensures l in d.layers
  {
  }

  /** After every completed operation, the last policy sent for each layer is the set of its
      organization's members. */
  lemma {:induction false} PoliciesInStep(slug: string -> string, worlds: seq<World>, events: seq<Event>, i: nat)
    requires Behaves(slug, worlds, events) && Good(worlds[0].desk) && InStep(worlds[0]) && i <= |events|
    ensures Good(worlds[i].desk) && InStep(worlds[i])
  {
    hide Good, InStep, Next;
    if i > 0 {
      PoliciesInStep(slug, worlds, events, i - 1);
      NextKeeps(slug, worlds[i - 1], events[i - 1], worlds[i]);
    }
  }

  // ---- Invites over whole runs ------------------------------------------------------------------------------------

  lemma InvitesCompose(a: map<nat, Invite>, b: map<nat, Invite>, c: map<nat, Invite>)
    requires InvitesEvolve(a, b) && InvitesEvolve(b, c)
    ensures InvitesEvolve(a, c)
  {
  }

  /** An invite leaves the pending state at most once and never changes again: from any state of a run
      to any later one. */
  lemma {:induction false} AnswersAreFinal(slug: string -> string, worlds: seq<World>, events: seq<Event>, i: nat,
                                           j: nat)
    requires Behaves(slug, worlds, events) && Good(worlds[0].desk) && InStep(worlds[0]) && i <= j <= |events|
    ensures InvitesEvolve(worlds[i].desk.invites, worlds[j].desk.invites)
    decreases j
  {
    hide Good, InStep, Next, MembershipsEvolve, LayersEvolve;
    if i < j {
      AnswersAreFinal(slug, worlds, events, i, j - 1);
      PoliciesInStep(slug, worlds, events, j - 1);
      NextKeeps(slug, worlds[j - 1], events[j - 1], worlds[j]);
      InvitesCompose(worlds[i].desk.invites, worlds[j - 1].desk.invites, worlds[j].desk.invites);
    } else {
      SameInvites(worlds[i].desk.invites);
    }
  }

  lemma SameInvites(invites: map<nat, Invite>)
    ensures InvitesEvolve(invites, invites)
  {
  }

  /** A step that creates a membership through invite `k`. */
  ghost predicate Brings(v: World, w: World, k: nat) {
    exists m :: m in w.desk.memberships && m !in v.desk.memberships && w.desk.memberships[m].createdThrough == Some(k)
  }

  lemma AcceptBrings(d: Desk, e: Event, slug: string -> string, m: nat, k: nat)
    requires Good(d) && m in After(slug, d, e).desk.memberships && m !in d.memberships
    requires After(slug, d, e).desk.memberships[m].createdThrough == Some(k)
    ensures k in d.invites && d.invites[k].status == Pending
    ensures k in After(slug, d, e).desk.invites && After(slug, d, e).desk.invites[k].status == Accepted
  {
    hide Good, MembershipRows, RoleRows, NamedRoles, TailnetName, TailnetExists, Accept, InviteRows, First;
    if e.AcceptInvite? {
      var found := Get(InviteRows(d, e.token));
      if found.Found? {
        InviteAt(d, e.token, found.id);
        AcceptBringsThrough(d, found.id, e.user, e.now, m, k);
      }
    }
  }

  lemma AcceptBringsThrough(d: Desk, j: nat, user: nat, now: int, m: nat, k: nat)
    requires Good(d) && j in d.invites && m in Accept(d, j, user, now).desk.memberships && m !in d.memberships
    requires Accept(d, j, user, now).desk.memberships[m].createdThrough == Some(k)
    ensures k in d.invites && d.invites[k].status == Pending
    ensures k in Accept(d, j, user, now).desk.invites && Accept(d, j, user, now).desk.invites[k].status == Accepted
  {
    hide Good, MembershipRows, RolesFor;
    GuestIsOne(d, d.invites[j]);
  }

  /** Over any run an invite creates at most one membership. */
  lemma {:induction false} OneMembershipPerInvite(slug: string -> string, worlds: seq<World>, events: seq<Event>,
                                                  i: nat, j: nat, k: nat)
    requires Behaves(slug, worlds, events) && Good(worlds[0].desk) && InStep(worlds[0]) && i <= j < |events|
    requires Brings(worlds[i], worlds[i + 1], k) && Brings(worlds[j], worlds[j + 1], k)
    ensures i == j
  {
    hide Good, InStep, After, Synced, TouchedLayers;
    BroughtOnce(slug, worlds, events, i, k);
    BroughtOnce(slug, worlds, events, j, k);
    if i < j {
      AnswersAreFinal(slug, worlds, events, i + 1, j);
    }
  }

  lemma BroughtOnce(slug: string -> string, worlds: seq<World>, events: seq<Event>, i: nat, k: nat)
    requires Behaves(slug, worlds, events) && Good(worlds[0].desk) && InStep(worlds[0]) && i < |events|
    requires Brings(worlds[i], worlds[i + 1], k)
    ensures k in worlds[i].desk.invites && worlds[i].desk.invites[k].status == Pending
    ensures k in worlds[i + 1].desk.invites && worlds[i + 1].desk.invites[k].status == Accepted
  {
    hide Good, InStep, After, Synced, TouchedLayers;
    PoliciesInStep(slug, worlds, events, i);
    var m :| m in worlds[i + 1].desk.memberships && m !in worlds[i].desk.memberships
        && worlds[i + 1].desk.memberships[m].createdThrough == Some(k);
    AcceptBrings(worlds[i].desk, events[i], slug, m, k);
  }

  /** Nobody is a member of an organization twice, in any state of a run. */
  lemma NeverMemberTwice(slug: string -> string, worlds: seq<World>, events: seq<Event>, i: nat, user: nat,
                         organization: nat)
    requires Behaves(slug, worlds, events) && Good(worlds[0].desk) && InStep(worlds[0]) && i <= |events|
    ensures forall a, b | a in MembershipRows(worlds[i].desk, user, organization)
            && b in MembershipRows(worlds[i].desk, user, organization) :: a == b
  {
    hide InStep, Next, Behaves, Drawn, UniqueTailnets, UniqueInvites, UniqueRoles, Through;
    PoliciesInStep(slug, worlds, events, i);
  }

  /** Accepting, in full: it is refused exactly when there is no such invite, it was answered, or it has expired,
      and then nothing changes; otherwise the invite is answered, and either the user's existing membership is
      returned with all memberships as they were, or one membership is added, with the invite's roles or
      else the guest role. */
  lemma AcceptMeaning(d: Desk, token: string, user: nat, now: int)
    requires Good(d)
    ensures var r := AfterAccept(d, token, user, now);
            && (r.result.Err? <==> forall k :: k in d.invites && d.invites[k].token == token ==>
                !IsValid(d.invites[k], now))
            && (r.result.Err? ==> r.desk == d)
    ensures var r := AfterAccept(d, token, user, now);
            r.result.Ok? ==> exists k ::
              && k in d.invites && d.invites[k].token == token && IsValid(d.invites[k], now)
              && r.desk.invites == d.invites[k := Answered(d.invites[k], user, now)]
              && (if MembershipRows(d, user, d.invites[k].organization) != {}
                  then r.desk.memberships == d.memberships
                      && r.result.value in MembershipRows(d, user, d.invites[k].organization)
                  else r.result.value !in d.memberships
                       && r.desk.memberships == d.memberships[r.result.value := Membership(user,
                             d.invites[k].organization,
                            if d.invites[k].roles != {} then d.invites[k].roles
                                else RoleRows(d, "guest", d.invites[k].organization), Some(k))])
  {
    hide Good, MembershipRows, InviteRows, RoleRows, RolesFor, Accept, First;
    var found := Get(InviteRows(d, token));
    match found
    case Found(k) =>
      InviteAt(d, token, k);
      OnlyInvite(d, token, k);
      AcceptEffect(d, k, user, now);
    case Missing => NoInvite(d, token);
    case Many => InviteTokensUnique(d, token);
  }

  lemma OnlyInvite(d: Desk, token: string, k: nat)
    requires InviteRows(d, token) == {k}
    ensures forall j :: j in d.invites && d.invites[j].token == token ==> j == k
  {
    assert forall j :: j in d.invites && d.invites[j].token == token ==> j in InviteRows(d, token);
  }

  lemma NoInvite(d: Desk, token: string)
    requires InviteRows(d, token) == {}
    ensures forall j :: j in d.invites ==> d.invites[j].token != token
  {
    assert forall j :: j in d.invites && d.invites[j].token == token ==> j in InviteRows(d, token);
  }

  lemma InviteTokensUnique(d: Desk, token: string)
    requires Good(d)
    ensures !Get(InviteRows(d, token)).Many?
  {
    hide UniquePairs, UniqueTailnets, UniqueRoles, Through, Drawn;
  }

  lemma AcceptEffect(d: Desk, k: nat, user: nat, now: int)
    requires Good(d) && k in d.invites
    ensures var r, o := Accept(d, k, user, now), d.invites[k].organization;
            && (r.result.Err? <==> !IsValid(d.invites[k], now))
            && (r.result.Err? ==> r.desk == d)
            && (r.result.Ok? ==>
                  && r.desk.invites == d.invites[k := Answered(d.invites[k], user, now)]
                  && (if MembershipRows(d, user, o) != {}
                      then r.desk.memberships == d.memberships && r.result.value in MembershipRows(d, user, o)
                      else r.result.value !in d.memberships
                           && r.desk.memberships == d.memberships[r.result.value := Membership(user, o,
                                if d.invites[k].roles != {} then d.invites[k].roles
                                    else RoleRows(d, "guest", o), Some(k))]))
  {
    hide MembershipRows, RoleRows, RolesFor, UniquePairs, UniqueTailnets, UniqueInvites, UniqueRoles, Through;
    GuestRoles(d, d.invites[k]);
  }

  lemma GuestRoles(d: Desk, invite: Invite)
    requires Good(d)
    ensures RolesFor(d, invite)
            == Ok(if invite.roles != {} then invite.roles else RoleRows(d, "guest", invite.organization))
  {
    hide RoleRows, First, UniquePairs, UniqueTailnets, UniqueInvites, Through, Drawn, UniqueRoles;
    RolesUnique(d, "guest", invite.organization);
  }

  lemma RolesUnique(d: Desk, identifier: string, organization: nat)
    requires Good(d)
    ensures !Get(RoleRows(d, identifier, organization)).Many?
  {
    hide UniquePairs, UniqueTailnets, UniqueInvites, Through, Drawn;
  }

  function RolesNamed(d: Desk, organization: nat, names: seq<string>): set<nat> {
    set r | r in d.roles && d.roles[r].organization == organization && d.roles[r].identifier in names
  }

  /** An invite is issued with exactly the organization's roles that are named, or its guest role. */
  lemma {:induction false} NamedRolesExactly(d: Desk, organization: nat, names: seq<string>)
    requires Good(d)
    ensures NamedRoles(d, organization, names) == (RolesNamed(d, organization, names), false)
  {
    hide Good, First;
    if names != [] {
      var before, last := names[..|names| - 1], names[|names| - 1];
      NamedRolesExactly(d, organization, before);
      RolesUnique(d, last, organization);
      assert names == before + [last];
      var some := RolesNamed(d, organization, before);
      assert RolesNamed(d, organization, names) == some + RoleRows(d, last, organization);
      assert some + {} == some;
    } else {
      assert RolesNamed(d, organization, names) == {};
    }
  }
}
