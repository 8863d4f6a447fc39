/** Organizations: memberships, invites and the tailnet layers whose policies follow the memberships
    (karakter/graphql/mutations/invite.py, karakter/signals.py, ionscale/manager.py,
    api/management/mutations/ionscale.py). */
module Organizations {
  import opened Prelude
  import opened Rows

  datatype InviteStatus = Pending | Accepted | Declined | Cancelled
  datatype Invite = Invite(token: string, createdBy: nat, organization: nat, expiresAt: Option<int>,
                           status: InviteStatus,
                           acceptedBy: Option<nat>, declinedBy: Option<nat>, respondedAt: Option<int>, roles: set<nat>)
  datatype Layer = Layer(organization: nat, tailnet: string)

  /** The tables of this part; an organization is known by the label its tailnets are named after. */
  datatype Desk = Desk(nextId: nat, labels: map<nat, string>, roles: map<nat, Grant>, memberships: map<nat, Membership>,
                       invites: map<nat, Invite>, layers: map<nat, Layer>)

  /** A policy sent to a tailnet: the ids of the users it admits. */
  datatype Policy = Policy(tailnet: string, subs: set<nat>)

  /** The tables and the record of the tailnet service. */
  datatype World = World(desk: Desk, policies: seq<Policy>, tailnets: seq<string>)

  datatype Problem =
    | UnknownToken
    | UnknownId
    | AlreadyMember
    | AlreadyAnswered(status: InviteStatus)
    | ExpiredInvite
    | NotTheCreator
    | AmbiguousRow
    | TailnetTaken
    | TokenTaken

  datatype Event =
    | Join(user: nat, organization: nat)
    | Leave(membership: nat)
    | CreateLayer(organization: nat, name: string)
    | CreateInvite(organization: nat, creator: nat, days: Option<int>, names: seq<string>, token: string, now: int)
    | AcceptInvite(token: string, user: nat, now: int)
    | DeclineInvite(token: string, user: nat, now: int)
    | CancelInvite(id: nat, user: nat)

  // ---- Look-ups --------------------------------------------------------------------------------------------

  function MembershipRows(d: Desk, user: nat, organization: nat): set<nat> {
    set m | m in d.memberships && d.memberships[m].user == user && d.memberships[m].organization == organization
  }

  function RoleRows(d: Desk, identifier: string, organization: nat): set<nat> {
    set r | r in d.roles && d.roles[r].identifier == identifier && d.roles[r].organization == organization
  }

  function InviteRows(d: Desk, token: string): set<nat> {
    set i | i in d.invites && d.invites[i].token == token
  }

  function LayersOf(d: Desk, organization: nat): set<nat> {
    set l | l in d.layers && d.layers[l].organization == organization
  }

  /** The members of an organization, as the policy lists them. */
  function Members(memberships: map<nat, Membership>, organization: nat): set<nat> {
    set m | m in memberships && memberships[m].organization == organization :: memberships[m].user
  }

  predicate IsValid(i: Invite, now: int) {
    i.status == Pending && !(i.expiresAt.Some? && i.expiresAt.value < now)
  }

  // ---- What each event does to the tables ----------------------------------------------------------------------

  /** The tables afterwards, and the id of the row it is about or the problem that stopped it. */
  datatype Outcome = Outcome(desk: Desk, result: Result<nat, Problem>)

  function AfterJoin(d: Desk, user: nat, organization: nat, through: Option<nat>): (r: Outcome)
    ensures r.desk == d.(nextId := r.desk.nextId, memberships := r.desk.memberships)
  {
    if MembershipRows(d, user, organization) != {} then Outcome(d, Err(AlreadyMember))
    else
      Outcome(d.(nextId := d.nextId + 1,
                 memberships := d.memberships[d.nextId := Membership(user, organization, {}, through)]), Ok(d.nextId))
  }

  function AfterLeave(d: Desk, m: nat): (r: Outcome)
    ensures r.desk == d.(memberships := r.desk.memberships)
  {
    if m !in d.memberships then Outcome(d, Err(UnknownId)) else Outcome(d.(memberships := d.memberships - {m}), Ok(m))
  }

  /** The name a layer's tailnet gets; `slug` lowers, strips and dashes the given name. */
  function TailnetName(slug: string -> string, owner: string, name: string): string {
    owner + "-" + slug(if name != "" then name else "default")
  }

  predicate TailnetExists(d: Desk, tailnet: string) {
    exists l :: l in d.layers && d.layers[l].tailnet == tailnet
  }

  function AfterCreateLayer(slug: string -> string, d: Desk, organization: nat, name: string): (r: Outcome)
    ensures r.desk == d.(nextId := r.desk.nextId, layers := r.desk.layers)
  {
    if organization !in d.labels then Outcome(d, Err(UnknownId))
    else
      var tailnet := TailnetName(slug, d.labels[organization], name);
      if TailnetExists(d, tailnet) then Outcome(d, Err(TailnetTaken))
      else Outcome(d.(nextId := d.nextId + 1, layers := d.layers[d.nextId := Layer(organization, tailnet)]),
                   Ok(d.nextId))
  }

  /** The roles that exist among the named ones; a name with several rows raises. */
  function NamedRoles(d: Desk, organization: nat, names: seq<string>): (set<nat>, bool) {
    if names == [] then ({}, false)
    else
      var (before, raised) := NamedRoles(d, organization, names[..|names| - 1]);
      if raised then (before, true)
      else match Get(RoleRows(d, names[|names| - 1], organization))
        case Found(r) => (before + {r}, false)
        case Missing => (before, false)
        case Many => (before, true)
  }

  function AfterCreateInvite(d: Desk, e: Event): (r: Outcome)
    requires e.CreateInvite?
    ensures r.desk == d.(nextId := r.desk.nextId, invites := r.desk.invites)
  {
    if e.organization !in d.labels then Outcome(d, Err(UnknownId))
    else if InviteRows(d, e.token) != {} then Outcome(d, Err(TokenTaken))
    else
      var expiresAt := if e.days.Some? && e.days.value != 0 then Some(e.now + e.days.value * 86400) else None;
      var (roles, raised) := NamedRoles(d, e.organization, if e.names != [] then e.names else ["guest"]);
      var row := Invite(e.token, e.creator, e.organization, expiresAt, Pending, None, None, None, roles);
      Outcome(d.(nextId := d.nextId + 1, invites := d.invites[d.nextId := row]), if raised then Err(AmbiguousRow)
              else Ok(d.nextId))
  }

  function Answered(i: Invite, user: nat, now: int): Invite {
    i.(status := Accepted, acceptedBy := Some(user), respondedAt := Some(now))
  }

  /** The invite's own roles, or else the guest role where there is one. */
  function RolesFor(d: Desk, invite: Invite): Result<set<nat>, Problem> {
    if invite.roles != {} then Ok(invite.roles)
    else match Get(RoleRows(d, "guest", invite.organization))
      case Found(r) => Ok({r})
      case Missing => Ok({})
      case Many => Err(AmbiguousRow)
  }

  function Refusal(i: Invite): Problem {
    if i.status == Pending then ExpiredInvite else AlreadyAnswered(i.status)
  }

  function Accept(d: Desk, k: nat, user: nat, now: int): (r: Outcome)
    requires k in d.invites
    ensures r.desk == d.(nextId := r.desk.nextId, memberships := r.desk.memberships, invites := r.desk.invites)
  {
    var invite := d.invites[k];
    if !IsValid(invite, now) then Outcome(d, Err(Refusal(invite)))
    else
      match First(MembershipRows(d, user, invite.organization))
      case Some(m) => Outcome(d.(invites := d.invites[k := Answered(invite, user, now)]), Ok(m))
      case None =>
        var joined := AfterJoin(d, user, invite.organization, Some(k)).desk;
        match RolesFor(d, invite)
        case Err(p) => Outcome(joined, Err(p))
        case Ok(roles) =>
          Outcome(joined.(memberships := joined.memberships[d.nextId := Membership(user, invite.organization, roles,
                Some(k))],
                          invites := d.invites[k := Answered(invite, user, now)]), Ok(d.nextId))
  }

  /** `get(token=…)`; the token column is unique. */
  function AfterAccept(d: Desk, token: string, user: nat, now: int): (r: Outcome)
    ensures r.desk == d.(nextId := r.desk.nextId, memberships := r.desk.memberships, invites := r.desk.invites)
  {
    match Get(InviteRows(d, token))
    case Found(k) =>
      assert k in InviteRows(d, token);
      Accept(d, k, user, now)
    case Missing => Outcome(d, Err(UnknownToken))
    case Many => Outcome(d, Err(AmbiguousRow))
  }

  /** Declining asks for a pending invite only; an expired one can still be declined. */
  function AfterDecline(d: Desk, token: string, user: nat, now: int): (r: Outcome)
    ensures r.desk == d.(invites := r.desk.invites)
  {
    match Get(InviteRows(d, token))
    case Found(k) =>
      assert k in InviteRows(d, token);
      var invite := d.invites[k];
      if invite.status != Pending then Outcome(d, Err(AlreadyAnswered(invite.status)))
      else Outcome(d.(invites := d.invites[k := invite.(status := Declined, declinedBy := Some(user),
                                                        respondedAt := Some(now))]), Ok(k))
    case Missing => Outcome(d, Err(UnknownToken))
    case Many => Outcome(d, Err(AmbiguousRow))
  }

  function AfterCancel(d: Desk, k: nat, user: nat): (r: Outcome)
    ensures r.desk == d.(invites := r.desk.invites)
  {
    if k !in d.invites then Outcome(d, Err(UnknownId))
    else
      var invite := d.invites[k];
      if invite.createdBy != user then Outcome(d, Err(NotTheCreator))
      else if invite.status != Pending then Outcome(d, Err(AlreadyAnswered(invite.status)))
      else Outcome(d.(invites := d.invites[k := invite.(status := Cancelled)]), Ok(k))
  }

  function After(slug: string -> string, d: Desk, e: Event): Outcome {
    match e
    case Join(user, organization) => AfterJoin(d, user, organization, None)
    case Leave(m) => AfterLeave(d, m)
    case CreateLayer(organization, name) => AfterCreateLayer(slug, d, organization, name)
    case CreateInvite(_, _, _, _, _, _) => AfterCreateInvite(d, e)
    case AcceptInvite(token, user, now) => AfterAccept(d, token, user, now)
    case DeclineInvite(token, user, now) => AfterDecline(d, token, user, now)
    case CancelInvite(id, user) => AfterCancel(d, id, user)
  }

  // ---- Steps of the whole world -----------------------------------------------------------------------------------

  /** What `sync` sends for a layer. */
  function PolicyOf(d: Desk, l: nat): Policy
    requires l in d.layers
  {
    Policy(d.layers[l].tailnet, Members(d.memberships, d.layers[l].organization))
  }

  ghost predicate SentFor(d: Desk, layers: set<nat>, policy: Policy) {
    exists l :: l in layers && l in d.layers && policy == PolicyOf(d, l)
  }

  ghost predicate SentSince(policies: seq<Policy>, from: nat, tailnet: string) {
    exists i :: from <= i < |policies| && policies[i].tailnet == tailnet
  }

  /** Synchronizing some layers appends one policy for each of them, in whatever order the query lists them. */
  ghost predicate Synced(before: seq<Policy>, after: seq<Policy>, d: Desk, layers: set<nat>) {
    && before <= after
    && (forall i :: |before| <= i < |after| ==> SentFor(d, layers, after[i]))
    && (forall l :: l in layers && l in d.layers ==> SentSince(after, |before|, d.layers[l].tailnet))
  }

  /** The layers whose policy an event sends anew: those of an organization that gains or loses a member,
      and a new layer. */
  ghost predicate Touched(d: Desk, u: Desk, l: nat) {
    && l in u.layers
    && (l !in d.layers || exists m :: && (m in d.memberships) != (m in u.memberships)
                                      && (if m in d.memberships then d.memberships[m]
                                          else u.memberships[m]).organization == u.layers[l].organization)
  }

  ghost function TouchedLayers(d: Desk, u: Desk): set<nat> {
    set l | l in u.layers && Touched(d, u, l)
  }

  /** One completed operation. */
  ghost predicate Next(slug: string -> string, v: World, e: Event, w: World) {
    && w.desk == After(slug, v.desk, e).desk
    && Synced(v.policies, w.policies, w.desk, TouchedLayers(v.desk, w.desk))
    && w.tailnets == v.tailnets + (if e.CreateLayer? && e.organization in v.desk.labels
                                   then [TailnetName(slug, v.desk.labels[e.organization], e.name)] else [])
  }

  /** A run of completed operations. */
  ghost predicate Behaves(slug: string -> string, worlds: seq<World>, events: seq<Event>) {
    && |worlds| == |events| + 1
    && forall i :: 0 <= i < |events| ==> Next(slug, worlds[i], events[i], worlds[i + 1])
  }
}
