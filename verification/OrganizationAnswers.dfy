/** What each operation of an organization answers and leaves, and whom a policy admits, said of the rows
    themselves. */
module OrganizationAnswers {
  import opened Prelude
  import opened Rows
  import opened Organizations
  import opened OrganizationLaws

  predicate IsMember(d: Desk, m: nat, user: nat, organization: nat) {
    m in d.memberships && d.memberships[m].user == user && d.memberships[m].organization == organization
  }

  predicate HasToken(d: Desk, k: nat, token: string) {
    k in d.invites && d.invites[k].token == token
  }

  predicate IsOver(row: Invite, now: int) {
    row.expiresAt.Some? && row.expiresAt.value < now
  }

  predicate IsRole(d: Desk, r: nat, organization: nat, identifier: string) {
    r in d.roles && d.roles[r].organization == organization && d.roles[r].identifier == identifier
  }

  // ---- Memberships and layers -------------------------------------------------------------------------------------

  /** Joining adds a member without roles, unless there is one. */
  ghost predicate JoinedAs(d: Desk, o: Outcome, user: nat, organization: nat) {
    match o.result
    case Ok(m) =>
      && (forall n: nat :: !IsMember(d, n, user, organization)) && m !in d.memberships
      && o.desk == d.(nextId := o.desk.nextId,
                      memberships := d.memberships[m := Membership(user, organization, {}, None)])
    case Err(p) => p == AlreadyMember && o.desk == d && exists n: nat :: IsMember(d, n, user, organization)
  }

  /** Leaving removes the one membership. */
  ghost predicate LeftAs(d: Desk, o: Outcome, m: nat) {
    match o.result
    case Ok(n) => n == m && m in d.memberships && o.desk == d.(memberships := d.memberships - {m})
    case Err(p) => p == UnknownId && m !in d.memberships && o.desk == d
  }

  /** A new layer's tailnet has the organization's label and the given name, and is nobody else's. */
  ghost predicate LayeredAs(slug: string -> string, d: Desk, o: Outcome, organization: nat, name: string) {
    if organization !in d.labels then o == Outcome(d, Err(UnknownId))
    else
      var tailnet := d.labels[organization] + "-" + slug(if name == "" then "default" else name);
      match o.result
      case Ok(l) =>
        && l !in d.layers && (forall k :: k in d.layers ==> d.layers[k].tailnet != tailnet)
        && o.desk == d.(nextId := o.desk.nextId, layers := d.layers[l := Layer(organization, tailnet)])
      case Err(p) => p == TailnetTaken && o.desk == d && exists k :: k in d.layers && d.layers[k].tailnet == tailnet
  }

  lemma JoinAnswers(d: Desk, user: nat, organization: nat)
    requires Good(d)
    ensures JoinedAs(d, AfterJoin(d, user, organization, None), user, organization)
  {
    NoSuchMember(d, user, organization);
    if m :| m in MembershipRows(d, user, organization) {
      assert IsMember(d, m, user, organization);
    }
  }

  lemma LeaveAnswers(d: Desk, m: nat)
    ensures LeftAs(d, AfterLeave(d, m), m)
  {
  }

  lemma LayerAnswers(slug: string -> string, d: Desk, organization: nat, name: string)
    requires Good(d)
    ensures LayeredAs(slug, d, AfterCreateLayer(slug, d, organization, name), organization, name)
  {
    hide UniquePairs, UniqueTailnets, UniqueInvites, UniqueRoles, Through;
  }

  // ---- Invites ----------------------------------------------------------------------------------------------------

  /** The columns of a new invite: it expires after that many days, never without them, and brings exactly the named
      roles the organization has, or its guest role where none is named. */
  ghost predicate InvitedAs(d: Desk, row: Invite, e: Event)
    requires e.CreateInvite?
  {
    && row.token == e.token && row.createdBy == e.creator && row.organization == e.organization && row.status == Pending
    && row.acceptedBy.None? && row.declinedBy.None? && row.respondedAt.None?
    && row.expiresAt == (if e.days.None? || e.days.value == 0 then None else Some(e.now + e.days.value * 86400))
    && forall r :: r in row.roles <==>
         exists name :: IsRole(d, r, e.organization, name)
             && (if e.names == [] then name == "guest" else name in e.names)
  }

  ghost predicate CreatedAs(d: Desk, o: Outcome, e: Event)
    requires e.CreateInvite?
  {
    if e.organization !in d.labels then o == Outcome(d, Err(UnknownId))
    else if exists k: nat :: HasToken(d, k, e.token) then o == Outcome(d, Err(TokenTaken))
    else && o.result.Ok? && o.result.value !in d.invites && o.result.value in o.desk.invites
         && o.desk == d.(nextId := o.desk.nextId,
                         invites := d.invites[o.result.value := o.desk.invites[o.result.value]])
         && InvitedAs(d, o.desk.invites[o.result.value], e)
  }

  lemma RolesOf(d: Desk, organization: nat, names: seq<string>)
    requires Good(d)
    ensures !NamedRoles(d, organization, names).1
    ensures forall r :: r in NamedRoles(d, organization, names).0 <==>
                        exists name :: IsRole(d, r, organization, name) && name in names
  {
    hide Good;
    NamedRolesExactly(d, organization, names);
    forall r ensures r in RolesNamed(d, organization, names) <==>
                     exists name :: IsRole(d, r, organization, name) && name in names
    {
      if r in RolesNamed(d, organization, names) { assert IsRole(d, r, organization, d.roles[r].identifier); }
    }
  }

  lemma TokenRows(d: Desk, token: string)
    requires Good(d)
    ensures match Get(InviteRows(d, token))
            case Missing => forall k: nat :: !HasToken(d, k, token)
            case Found(k) => HasToken(d, k, token) && forall j: nat :: HasToken(d, j, token) ==> j == k
            case Many => false
  {
    hide Good, First;
    InviteTokensUnique(d, token);
    forall k: nat ensures HasToken(d, k, token) <==> k in InviteRows(d, token) {
    }
    if Get(InviteRows(d, token)).Found? { assert Get(InviteRows(d, token)).id in InviteRows(d, token); }
  }

  lemma CreateAnswers(d: Desk, e: Event)
    requires Good(d) && e.CreateInvite?
    ensures CreatedAs(d, AfterCreateInvite(d, e), e)
  {
    hide UniquePairs, UniqueTailnets, UniqueRoles, UniqueInvites, Through, NamedRoles, IsRole;
    RolesOf(d, e.organization, if e.names != [] then e.names else ["guest"]);
    forall k: nat ensures HasToken(d, k, e.token) <==> k in InviteRows(d, e.token) {
    }
  }

  /** Accepting a pending invite in time: the user's membership is kept, or one is added with the invite's
      roles, or else with the guest role. */
  ghost predicate AcceptedAs(d: Desk, o: Outcome, k: nat, user: nat, now: int) {
    && k in d.invites
    && var row := d.invites[k];
    if row.status != Pending then o == Outcome(d, Err(AlreadyAnswered(row.status)))
    else if IsOver(row, now) then o == Outcome(d, Err(ExpiredInvite))
    else
      && o.result.Ok?
      && var m := o.result.value;
      && o.desk == d.(nextId := o.desk.nextId, memberships := o.desk.memberships,
                      invites := d.invites[k := row.(status := Accepted, acceptedBy := Some(user),
                                                     respondedAt := Some(now))])
      && if exists n: nat :: IsMember(d, n, user, row.organization)
         then IsMember(d, m, user, row.organization) && o.desk.memberships == d.memberships
         else && m !in d.memberships && m in o.desk.memberships
              && o.desk.memberships == d.memberships[m := o.desk.memberships[m]]
              && var member := o.desk.memberships[m];
              && member.user == user && member.organization == row.organization && member.createdThrough == Some(k)
              && if row.roles != {} then member.roles == row.roles
                 else forall r: nat :: r in member.roles <==> IsRole(d, r, row.organization, "guest")
  }

  lemma AcceptFoundAnswers(d: Desk, k: nat, user: nat, now: int)
    requires Good(d) && k in d.invites
    ensures AcceptedAs(d, Accept(d, k, user, now), k, user, now)
  {
    hide UniquePairs, UniqueTailnets, UniqueRoles, UniqueInvites, Through, RolesFor, First;
    var row := d.invites[k];
    GuestRoles(d, row);
    var rows := MembershipRows(d, user, row.organization);
    forall n: nat ensures IsMember(d, n, user, row.organization) <==> n in rows {
    }
    forall r: nat ensures IsRole(d, r, row.organization, "guest") <==> r in RoleRows(d, "guest", row.organization) {
    }
    if IsValid(row, now) && First(rows).None? {
      AddedThrough(d, k, user, now);
    }
  }

  lemma AddedThrough(d: Desk, k: nat, user: nat, now: int)
    requires Good(d) && k in d.invites && IsValid(d.invites[k], now)
    requires First(MembershipRows(d, user, d.invites[k].organization)).None? && RolesFor(d, d.invites[k]).Ok?
    ensures var o := Accept(d, k, user, now);
            o.result == Ok(d.nextId) && d.nextId !in d.memberships
            && o.desk.memberships == d.memberships[d.nextId := Membership(user, d.invites[k].organization,
                                                     RolesFor(d, d.invites[k]).value, Some(k))]
  {
    hide UniquePairs, UniqueTailnets, UniqueRoles, UniqueInvites, Through, RolesFor, MembershipRows, First;
    var joined := AfterJoin(d, user, d.invites[k].organization, Some(k)).desk;
    var member := Membership(user, d.invites[k].organization, RolesFor(d, d.invites[k]).value, Some(k));
    assert joined.memberships[d.nextId := member] == d.memberships[d.nextId := member];
  }

  /** Declining: a pending invite, even one that is over. */
  ghost predicate DeclinedAs(d: Desk, o: Outcome, k: nat, user: nat, now: int) {
    && k in d.invites
    && var row := d.invites[k];
    if row.status != Pending then o == Outcome(d, Err(AlreadyAnswered(row.status)))
    else o == Outcome(d.(invites := d.invites[k := row.(status := Declined, declinedBy := Some(user),
                                                        respondedAt := Some(now))]), Ok(k))
  }

  /** Cancelling: only the creator's own pending invite. */
  ghost predicate CancelledAs(d: Desk, o: Outcome, k: nat, user: nat) {
    if k !in d.invites then o == Outcome(d, Err(UnknownId))
    else
      var row := d.invites[k];
      if user != row.createdBy then o == Outcome(d, Err(NotTheCreator))
      else if row.status != Pending then o == Outcome(d, Err(AlreadyAnswered(row.status)))
      else o == Outcome(d.(invites := d.invites[k := row.(status := Cancelled)]), Ok(k))
  }

  lemma AcceptAnswers(d: Desk, token: string, user: nat, now: int)
    requires Good(d)
    ensures var o := AfterAccept(d, token, user, now);
            && ((forall k: nat :: !HasToken(d, k, token)) ==> o == Outcome(d, Err(UnknownToken)))
            && forall k: nat :: HasToken(d, k, token) ==> AcceptedAs(d, o, k, user, now)
  {
    hide Good, InviteRows, First, Accept, AcceptedAs;
    TokenRows(d, token);
    if Get(InviteRows(d, token)).Found? { AcceptFoundAnswers(d, Get(InviteRows(d, token)).id, user, now); }
  }

  lemma DeclineAnswers(d: Desk, token: string, user: nat, now: int)
    requires Good(d)
    ensures var o := AfterDecline(d, token, user, now);
            && ((forall k: nat :: !HasToken(d, k, token)) ==> o == Outcome(d, Err(UnknownToken)))
            && forall k: nat :: HasToken(d, k, token) ==> DeclinedAs(d, o, k, user, now)
  {
    hide Good, InviteRows, First;
    TokenRows(d, token);
  }

  lemma CancelAnswers(d: Desk, k: nat, user: nat)
    ensures CancelledAs(d, AfterCancel(d, k, user), k, user)
  {
  }

  /** What every operation answers and leaves. */
  ghost predicate AnsweredAs(slug: string -> string, d: Desk, o: Outcome, e: Event) {
    match e
    case Join(user, organization) => JoinedAs(d, o, user, organization)
    case Leave(m) => LeftAs(d, o, m)
    case CreateLayer(organization, name) => LayeredAs(slug, d, o, organization, name)
    case CreateInvite(_, _, _, _, _, _) => CreatedAs(d, o, e)
    case AcceptInvite(token, user, now) =>
      && ((forall k: nat :: !HasToken(d, k, token)) ==> o == Outcome(d, Err(UnknownToken)))
      && forall k: nat :: HasToken(d, k, token) ==> AcceptedAs(d, o, k, user, now)
    case DeclineInvite(token, user, now) =>
      && ((forall k: nat :: !HasToken(d, k, token)) ==> o == Outcome(d, Err(UnknownToken)))
      && forall k: nat :: HasToken(d, k, token) ==> DeclinedAs(d, o, k, user, now)
    case CancelInvite(k, user) => CancelledAs(d, o, k, user)
  }

  lemma Answers(slug: string -> string, d: Desk, e: Event)
    requires Good(d)
    ensures AnsweredAs(slug, d, After(slug, d, e), e)
  {
    hide Good, JoinedAs, LeftAs, LayeredAs, CreatedAs, AcceptedAs, DeclinedAs, CancelledAs, AfterJoin, AfterLeave,
      AfterCreateLayer, AfterCreateInvite, AfterAccept, AfterDecline, AfterCancel, HasToken;
    match e
    case Join(user, organization) => JoinAnswers(d, user, organization);
    case Leave(m) => LeaveAnswers(d, m);
    case CreateLayer(organization, name) => LayerAnswers(slug, d, organization, name);
    case CreateInvite(_, _, _, _, _, _) => CreateAnswers(d, e);
    case AcceptInvite(token, user, now) => AcceptAnswers(d, token, user, now);
    case DeclineInvite(token, user, now) => DeclineAnswers(d, token, user, now);
    case CancelInvite(k, user) => CancelAnswers(d, k, user);
  }

  // ---- Whole runs -------------------------------------------------------------------------------------------------

  predicate IsLastFor(policies: seq<Policy>, tailnet: string, i: int) {
    0 <= i < |policies| && policies[i].tailnet == tailnet && forall j :: i < j < |policies| ==>
        policies[j].tailnet != tailnet
  }

  /** The policy the layer's tailnet was sent last admits a user exactly if some membership of the layer's
      organization is that user's. */
  ghost predicate AdmitsMembers(w: World, l: nat) {
    && l in w.desk.layers
    && exists n :: && IsLastFor(w.policies, w.desk.layers[l].tailnet, n)
                   && forall user :: user in w.policies[n].subs <==>
                        exists m: nat :: IsMember(w.desk, m, user, w.desk.layers[l].organization)
  }

  /** Every operation of a run answers so, and at every moment every layer's last policy admits the members. */
  lemma RunAnswers(slug: string -> string, worlds: seq<World>, events: seq<Event>, i: nat)
    requires Behaves(slug, worlds, events) && Good(worlds[0].desk) && InStep(worlds[0]) && i <= |events|
    ensures i < |events| ==>
              AnsweredAs(slug, worlds[i].desk,
                         Outcome(worlds[i + 1].desk, After(slug, worlds[i].desk, events[i]).result), events[i])
    ensures forall l :: l in worlds[i].desk.layers ==> AdmitsMembers(worlds[i], l)
  {
    hide Good, AnsweredAs, After, Synced, AdmitsMembers;
    PoliciesInStep(slug, worlds, events, i);
    if i < |events| { Answers(slug, worlds[i].desk, events[i]); }
    forall l | l in worlds[i].desk.layers ensures AdmitsMembers(worlds[i], l) {
      Admitted(worlds[i], l);
    }
  }

  lemma Admitted(w: World, l: nat)
    requires InStep(w) && l in w.desk.layers
    ensures AdmitsMembers(w, l)
  {
    var tailnet, o := w.desk.layers[l].tailnet, w.desk.layers[l].organization;
    var n :| IsLast(w.policies, tailnet, n) && w.policies[n].subs == Members(w.desk.memberships, o);
    assert IsLastFor(w.policies, tailnet, n);
    forall user ensures user in w.policies[n].subs <==> exists m: nat :: IsMember(w.desk, m, user, o) {
      if user in w.policies[n].subs {
        var m :| m in w.desk.memberships && w.desk.memberships[m].organization == o
            && w.desk.memberships[m].user == user;
        assert IsMember(w.desk, m, user, o);
      }
    }
  }
}
