/** Registrations that overlap: nothing locks the clients of a release, user, organization and node, so each
    call of `create_development_client` looks them up and writes in two steps that others may come between.  A
    missing node is not seen by the unique constraint either. */
module RegistrationRace {
  import opened Prelude
  import opened Rows
  import opened Clients
  import opened Invariants

  /** What a call has done.  A call that found a client goes on with the copy it has read. */
  datatype Phase =
    | Waiting
    | Absent
    | Present(id: nat, copy: Client)
    | Inserted(id: nat)
    | Updated(id: nat)
    | Refused(error: Error)

  datatype Race = Race(tables: Tables, phases: seq<Phase>)

  datatype Action = LookUp(call: nat) | Write(call: nat)

  function Start(t: Tables, calls: seq<Registration>): Race {
    Race(t, seq(|calls|, _ => Waiting))
  }

  function Looking(t: Tables, g: Registration): Phase {
    match Get(g.Rows(t))
    case Missing => Absent
    case Found(c) =>
      assert c in g.Rows(t);
      Present(c, t.clients[c])
    case Many => Refused(Ambiguous)
  }

  /** The new OAuth2 client and client, or neither. */
  function Inserting(t: Tables, g: Registration): Result<(Tables, nat), Error> {
    var t1 := NewOAuthClient(t, g.clientId);
    var membership :- ConfigMembership(t1, g.config);
    var c := t1.nextId;
    var t2 :- SaveClient(t1.(nextId := c + 1), c, g.New(membership, t.nextId));
    Ok((t2, c))
  }

  function Updating(t: Tables, g: Registration, c: nat, copy: Client): Result<(Tables, nat), Error> {
    var membership :- ConfigMembership(t, g.config);
    var t1 :- SaveClient(t, c, g.Updated(copy, membership));
    Ok((t1, c))
  }

  /** Each writes when it commits; an exception rolls back. */
  function Writing(t: Tables, g: Registration, p: Phase): (Tables, Phase)
    requires p.Absent? || p.Present?
  {
    match p
    case Absent =>
      (match Inserting(t, g)
       case Ok((u, c)) => (u, Phase.Inserted(c))
       case Err(e) => (t, Refused(e)))
    case Present(c, copy) =>
      (match Updating(t, g, c, copy)
       case Ok((u, _)) => (u, Phase.Updated(c))
       case Err(e) => (t, Refused(e)))
  }

  /** An action that is not enabled leaves the race as it is. */
  function Next(calls: seq<Registration>, r: Race, a: Action): (u: Race)
    requires |r.phases| == |calls|
    ensures |u.phases| == |calls|
  {
    match a
    case LookUp(k) =>
      if k < |calls| && r.phases[k].Waiting? then r.(phases := r.phases[k := Looking(r.tables, calls[k])]) else r
    case Write(k) =>
      if k < |calls| && (r.phases[k].Absent? || r.phases[k].Present?) then
        var (t, p) := Writing(r.tables, calls[k], r.phases[k]);
        Race(t, r.phases[k := p])
      else r
  }

  function Execute(calls: seq<Registration>, r: Race, actions: seq<Action>): (u: Race)
    requires |r.phases| == |calls|
    ensures |u.phases| == |calls|
    decreases |actions|
  {
    if actions == [] then r else Execute(calls, Next(calls, r, actions[0]), actions[1..])
  }

  /** What the caller of one registration by itself is told. */
  predicate Tells(p: Phase, r: Result<(Tables, nat), Error>) {
    match r
    case Ok((_, c)) => p == Phase.Inserted(c) || p == Phase.Updated(c)
    case Err(e) => p == Refused(e)
  }

  /** One call by itself is `create_development_client`. */
  lemma AloneIsSerial(t: Tables, g: Registration)
    ensures var u := Execute([g], Start(t, [g]), [LookUp(0), Write(0)]);
            var r := CreateDevelopmentClient(t, g);
            u.tables == (if r.Ok? then r.value.0 else t) && Tells(u.phases[0], r)
  {
    hide Execute, ConfigMembership, SaveClient, DevelopmentRows, First, Get;
    TwoActions([g], Start(t, [g]), LookUp(0), Write(0));
    var r1 := Next([g], Start(t, [g]), LookUp(0));
    assert r1 == Race(t, [Looking(t, g)]);
  }

  lemma TwoActions(calls: seq<Registration>, r: Race, a: Action, b: Action)
    requires |r.phases| == |calls|
    ensures Execute(calls, r, [a, b]) == Next(calls, Next(calls, r, a), b)
  {
    hide Next;
    assert [a, b][1..] == [b] && [b][1..] == [];
    assert Execute(calls, Next(calls, r, a), [b]) == Next(calls, Next(calls, r, a), b);
  }

  // ---- Overlaps ---------------------------------------------------------------------------------------------------

  /** Two calls about the same clients. */
  predicate SameKey(g: Registration, h: Registration) {
    && g.release == h.release && g.config.user == h.config.user && g.config.organization == h.config.organization
    && g.node == h.node
  }

  /** A call without a node that has found no client, and has not yet inserted one. */
  predicate IsAbout(calls: seq<Registration>, phases: seq<Phase>, k: int, g: Registration)
    requires |phases| == |calls|
  {
    0 <= k < |calls| && phases[k].Absent? && calls[k].node.None? && SameKey(calls[k], g)
  }

  /** A look-up that finds no client where another call without a node is about to insert one. */
  predicate Overlaps(calls: seq<Registration>, r: Race, a: Action)
    requires |r.phases| == |calls|
  {
    && a.LookUp? && a.call < |calls| && r.phases[a.call].Waiting? && Looking(r.tables, calls[a.call]).Absent?
    && exists j :: 0 <= j < |calls| && IsAbout(calls, r.phases, j, calls[a.call])
  }

  predicate NoOverlap(calls: seq<Registration>, r: Race, actions: seq<Action>)
    requires |r.phases| == |calls|
    decreases |actions|
  {
    actions != [] ==> !Overlaps(calls, r, actions[0]) && NoOverlap(calls, Next(calls, r, actions[0]), actions[1..])
  }

  // ---- Without an overlap there is one client ---------------------------------------------------------------------

  /** What was found is there, about the same clients, with the same OAuth2 client. */
  ghost predicate CopiesMatch(calls: seq<Registration>, r: Race)
    requires |r.phases| == |calls|
  {
    forall k :: 0 <= k < |calls| && r.phases[k].Present? ==>
      && r.phases[k].id in r.tables.clients && calls[k].Fits(r.phases[k].copy)
         && calls[k].Fits(r.tables.clients[r.phases[k].id])
      && r.phases[k].copy.oauthClient == r.tables.clients[r.phases[k].id].oauthClient
  }

  /** Where a call without a node is about to insert, there is still no client, and it is the only one. */
  ghost predicate AbsentStill(calls: seq<Registration>, r: Race)
    requires |r.phases| == |calls|
  {
    && (forall k, g :: IsAbout(calls, r.phases, k, g) ==> calls[k].Rows(r.tables) == {})
    && (forall j, k, g :: IsAbout(calls, r.phases, j, g) && IsAbout(calls, r.phases, k, g) ==> j == k)
  }

  ghost predicate Coherent(calls: seq<Registration>, r: Race)
    requires |r.phases| == |calls|
  {
    SoundRegistry(r.tables) && CopiesMatch(calls, r) && AbsentStill(calls, r)
  }

  lemma StartsCoherent(t: Tables, calls: seq<Registration>)
    requires SoundRegistry(t)
    ensures Coherent(calls, Start(t, calls))
  {
    hide SoundRegistry;
  }

  lemma NoneFit(t: Tables, g: Registration, c: nat)
    requires c in t.clients && g.Fits(t.clients[c])
    ensures c in g.Rows(t)
  {
  }

  lemma LookingIs(t: Tables, g: Registration)
    ensures var p := Looking(t, g);
            && (p.Absent? ==> g.Rows(t) == {})
            && (p.Present? ==> p.id in t.clients && p.copy == t.clients[p.id] && g.Fits(p.copy))
            && (p.Absent? || p.Present? || p.Refused?)
  {
    hide First;
    if Get(g.Rows(t)).Found? { assert Get(g.Rows(t)).id in g.Rows(t); }
  }

  lemma AboutItself(calls: seq<Registration>, phases: seq<Phase>, k: nat)
    requires |phases| == |calls| && k < |calls| && phases[k].Absent? && calls[k].node.None?
    ensures IsAbout(calls, phases, k, calls[k])
  {
  }

  /** After a look-up of `k` the other calls are about what they were about, and, if `k` is about the same
      clients, about those. */
  lemma AboutTheSame(calls: seq<Registration>, before: seq<Phase>, after: seq<Phase>, k: nat, i: int, g: Registration)
    requires |before| == |after| == |calls| && k < |calls| && after == before[k := after[k]]
    ensures IsAbout(calls, after, i, g) && i != k ==>
              IsAbout(calls, before, i, g) && (IsAbout(calls, after, k, g) ==> IsAbout(calls, before, i, calls[k]))
  {
  }

  lemma LookUpKeeps(calls: seq<Registration>, r: Race, a: Action)
    requires |r.phases| == |calls| && Coherent(calls, r) && a.LookUp? && !Overlaps(calls, r, a)
    ensures Coherent(calls, Next(calls, r, a))
  {
    hide SoundRegistry, Looking, DevelopmentRows;
    var u, k := Next(calls, r, a), a.call;
    if u != r {
      LookingIs(r.tables, calls[k]);
      forall i, g | IsAbout(calls, u.phases, i, g) ensures calls[i].Rows(u.tables) == {} {
        if i != k { assert IsAbout(calls, r.phases, i, g); }
      }
      forall i, j, g | IsAbout(calls, u.phases, i, g) && IsAbout(calls, u.phases, j, g) ensures i == j {
        AboutTheSame(calls, r.phases, u.phases, k, i, g);
        AboutTheSame(calls, r.phases, u.phases, k, j, g);
      }
    }
  }

  /** What a successful insertion does. */
  lemma InsertingIs(t: Tables, g: Registration)
    requires Inserting(t, g).Ok?
    ensures var (u, c) := Inserting(t, g).value;
            && c == t.nextId + 1
            && u == t.(nextId := t.nextId + 2, oauthClients := t.oauthClients[t.nextId := OAuthClient(g.clientId)],
                       clients := t.clients[c := u.clients[c]])
            && u.clients[c].oauthClient == t.nextId && g.Fits(u.clients[c])
            && (g.node.Some? && c !in t.clients ==> g.Rows(t) == {})
  {
    hide ConfigMembership;
  }

  lemma NextIsFree(t: Tables)
    requires SoundRegistry(t)
    ensures t.nextId + 1 !in t.clients && t.nextId !in t.clients && t.nextId !in t.oauthClients
  {
    hide OneApp, UniqueReleases, UniqueDevices, OneDevelopmentClient, OneOwner, MappingsOwned, ClientsAuthorized;
  }

  lemma InsertKeeps(calls: seq<Registration>, r: Race, k: nat)
    requires |r.phases| == |calls| && Coherent(calls, r) && k < |calls| && r.phases[k].Absent?
    ensures Coherent(calls, Next(calls, r, Write(k)))
  {
    hide SoundRegistry, Inserting, DevelopmentRows;
    var u, g := Next(calls, r, Write(k)), calls[k];
    if Inserting(r.tables, g).Ok? {
      InsertingIs(r.tables, g);
      NextIsFree(r.tables);
      if g.node.None? { AboutItself(calls, r.phases, k); }
      InsertSound(r.tables, g.clientId, u.tables.clients[r.tables.nextId + 1]);
    }
    forall i, h | IsAbout(calls, u.phases, i, h)
      ensures calls[i].Rows(u.tables) == {} && IsAbout(calls, r.phases, i, h) {
      OthersStayAbsent(calls, r, u, k, i, h);
    }
  }

  /** No client is for two calls that are about to insert, one of them without a node. */
  lemma NotAboutBoth(calls: seq<Registration>, r: Race, i: int, h: Registration, k: nat, row: Client)
    requires |r.phases| == |calls| && AbsentStill(calls, r) && k < |calls| && r.phases[k].Absent?
    requires IsAbout(calls, r.phases, i, h) && i != k && calls[k].Fits(row)
    ensures !calls[i].Fits(row)
  {
    assert IsAbout(calls, r.phases, i, calls[i]);
    var about := IsAbout(calls, r.phases, k, calls[i]);
  }

  /** A call that is about to insert goes on seeing no client when another call has inserted one. */
  lemma OthersStayAbsent(calls: seq<Registration>, r: Race, u: Race, k: nat, i: int, h: Registration)
    requires |r.phases| == |u.phases| == |calls| && AbsentStill(calls, r) && k < |calls| && r.phases[k].Absent?
    requires u == Next(calls, r, Write(k)) && IsAbout(calls, u.phases, i, h)
    ensures calls[i].Rows(u.tables) == {} && IsAbout(calls, r.phases, i, h)
  {
    hide Inserting, First;
    assert i != k && IsAbout(calls, r.phases, i, h);
    if Inserting(r.tables, calls[k]).Ok? {
      InsertingIs(r.tables, calls[k]);
      var c := r.tables.nextId + 1;
      NotAboutBoth(calls, r, i, h, k, u.tables.clients[c]);
    }
  }

  /** What a successful update does. */
  lemma UpdatingIs(t: Tables, g: Registration, c: nat, copy: Client)
    requires Updating(t, g, c, copy).Ok? && c in t.clients && g.Fits(copy)
    ensures var u := Updating(t, g, c, copy).value.0;
            u == t.(clients := t.clients[c := u.clients[c]]) && u.clients[c].oauthClient == copy.oauthClient
                && g.Fits(u.clients[c])
  {
    hide ConfigMembership, ClientFits;
  }

  lemma UpdateKeeps(calls: seq<Registration>, r: Race, k: nat)
    requires |r.phases| == |calls| && Coherent(calls, r) && k < |calls| && r.phases[k].Present?
    ensures Coherent(calls, Next(calls, r, Write(k)))
  {
    hide SoundRegistry, Updating, DevelopmentRows;
    var u, g, c := Next(calls, r, Write(k)), calls[k], r.phases[k].id;
    if Updating(r.tables, g, c, r.phases[k].copy).Ok? {
      UpdatingIs(r.tables, g, c, r.phases[k].copy);
      RowKept(r.tables, c, u.tables.clients[c]);
    }
    forall i, h | IsAbout(calls, u.phases, i, h)
      ensures calls[i].Rows(u.tables) == {} && IsAbout(calls, r.phases, i, h) {
      UpdateLeavesAbsent(calls, r, u, k, i, h);
    }
  }

  lemma UpdateLeavesAbsent(calls: seq<Registration>, r: Race, u: Race, k: nat, i: int, h: Registration)
    requires |r.phases| == |u.phases| == |calls| && AbsentStill(calls, r) && CopiesMatch(calls, r) && k < |calls|
             && r.phases[k].Present?
    requires u == Next(calls, r, Write(k)) && IsAbout(calls, u.phases, i, h)
    ensures calls[i].Rows(u.tables) == {} && IsAbout(calls, r.phases, i, h)
  {
    hide Updating, First;
    assert i != k && IsAbout(calls, r.phases, i, h);
    var c := r.phases[k].id;
    if Updating(r.tables, calls[k], c, r.phases[k].copy).Ok? {
      UpdatingIs(r.tables, calls[k], c, r.phases[k].copy);
      if calls[i].Fits(u.tables.clients[c]) { NoneFit(r.tables, calls[i], c); }
    }
  }

  lemma ActionKeeps(calls: seq<Registration>, r: Race, a: Action)
    requires |r.phases| == |calls| && Coherent(calls, r) && !Overlaps(calls, r, a)
    ensures Coherent(calls, Next(calls, r, a))
  {
    hide Coherent, Overlaps, Writing, Looking;
    match a
    case LookUp(_) => LookUpKeeps(calls, r, a);
    case Write(k) =>
      if k < |calls| && r.phases[k].Absent? { InsertKeeps(calls, r, k); }
      if k < |calls| && r.phases[k].Present? { UpdateKeeps(calls, r, k); }
  }

  /** In any interleaving in which no look-up without a result comes between another's, about the same clients
      and without a node, and its insertion, there is at most one development client per release, user,
      organization and node at every point. */
  lemma {:induction false} NoOverlapOneClient(calls: seq<Registration>, r: Race, actions: seq<Action>)
    requires |r.phases| == |calls| && Coherent(calls, r) && NoOverlap(calls, r, actions)
    ensures Coherent(calls, Execute(calls, r, actions))
            && OneDevelopmentClient(Execute(calls, r, actions).tables.clients)
    decreases |actions|
  {
    hide Next, Overlaps, CopiesMatch, AbsentStill, OneDevelopmentClient;
    if actions != [] {
      ActionKeeps(calls, r, actions[0]);
      NoOverlapOneClient(calls, Next(calls, r, actions[0]), actions[1..]);
    }
  }

  // ---- With an overlap there are two ------------------------------------------------------------------------------

  predicate Ongoing(p: Phase) { p.Waiting? || p.Absent? || p.Present? }

  /** No write is refused for another reason: client tokens are new, and memberships and compositions exist. */
  ghost predicate Unhindered(calls: seq<Registration>, r: Race)
    requires |r.phases| == |calls|
  {
    && (forall k, c :: 0 <= k < |calls| && Ongoing(r.phases[k]) && c in r.tables.clients ==>
          r.tables.clients[c].token != calls[k].config.token)
    && (forall j, k :: 0 <= j < k < |calls| ==> calls[j].config.token != calls[k].config.token)
    && (forall k :: 0 <= k < |calls| ==>
          && ConfigMembership(r.tables, calls[k].config).Ok?
          && (calls[k].composition.Some? ==> calls[k].composition.value in r.tables.compositions))
  }

  ghost predicate RowsDrawn(t: Tables) {
    Drawn(t.clients, t.nextId) && Drawn(t.oauthClients, t.nextId) && ClientsAuthorized(t.clients, t.oauthClients.Keys)
  }

  /** Every call that inserted a client has one of its own. */
  ghost predicate Entered(calls: seq<Registration>, r: Race)
    requires |r.phases| == |calls|
  {
    && (forall k :: 0 <= k < |calls| && r.phases[k].Inserted? ==>
          r.phases[k].id in r.tables.clients && calls[k].Fits(r.tables.clients[r.phases[k].id]))
    && (forall j, k :: 0 <= j < k < |calls| && r.phases[j].Inserted? && r.phases[k].Inserted? ==>
        r.phases[j].id != r.phases[k].id)
  }

  ghost predicate Tracked(calls: seq<Registration>, r: Race)
    requires |r.phases| == |calls|
  {
    RowsDrawn(r.tables) && CopiesMatch(calls, r) && Entered(calls, r) && Unhindered(calls, r)
  }

  /** The call, without a node, is about to insert a client, or has inserted one. */
  ghost predicate IsOn(calls: seq<Registration>, r: Race, k: int, g: Registration)
    requires |r.phases| == |calls|
  {
    0 <= k < |calls| && calls[k].node.None? && SameKey(calls[k], g) && (r.phases[k].Absent? || r.phases[k].Inserted?)
  }

  ghost predicate Doubled(calls: seq<Registration>, r: Race)
    requires |r.phases| == |calls|
  {
    exists j, k, g :: j != k && IsOn(calls, r, j, g) && IsOn(calls, r, k, g)
  }

  /** The client table with one row written. */
  ghost predicate OneWritten(t: Tables, u: Tables, c: nat, g: Registration) {
    && u == t.(nextId := u.nextId, oauthClients := u.oauthClients, clients := u.clients)
    && c in u.clients && u.clients == t.clients[c := u.clients[c]]
    && g.Fits(u.clients[c]) && u.clients[c].token == g.config.token
    && (c in t.clients ==> g.Fits(t.clients[c]) && u.clients[c].oauthClient == t.clients[c].oauthClient)
  }

  lemma InsertWrites(t: Tables, g: Registration)
    requires RowsDrawn(t) && Inserting(t, g).Ok?
    ensures var (u, c) := Inserting(t, g).value; OneWritten(t, u, c, g) && c !in t.clients && RowsDrawn(u)
  {
    hide ConfigMembership;
  }

  lemma UpdateWrites(t: Tables, g: Registration, c: nat, copy: Client)
    requires RowsDrawn(t) && Updating(t, g, c, copy).Ok? && c in t.clients && g.Fits(copy) && g.Fits(t.clients[c])
    requires copy.oauthClient == t.clients[c].oauthClient
    ensures var u := Updating(t, g, c, copy).value.0; OneWritten(t, u, c, g) && RowsDrawn(u)
  {
    hide ConfigMembership, ClientFits;
  }

  /** What one row more, or one row rewritten, does not disturb. */
  lemma WrittenTracks(calls: seq<Registration>, r: Race, u: Race, k: nat, c: nat)
    requires |r.phases| == |u.phases| == |calls| && k < |calls| && Tracked(calls, r) && RowsDrawn(u.tables)
    requires OneWritten(r.tables, u.tables, c, calls[k]) && u.phases == r.phases[k := u.phases[k]]
    requires Ongoing(r.phases[k])
    requires u.phases[k] == Phase.Updated(c) || (u.phases[k] == Phase.Inserted(c) && c !in r.tables.clients)
    ensures Tracked(calls, u)
  {
    hide RowsDrawn, MembershipRows;
    MembershipsStay(calls, r.tables, u.tables);
  }

  lemma MembershipsStay(calls: seq<Registration>, t: Tables, u: Tables)
    requires u.memberships == t.memberships && u.organizations == t.organizations
    ensures forall k :: 0 <= k < |calls| ==>
            ConfigMembership(u, calls[k].config) == ConfigMembership(t, calls[k].config)
  {
    forall k | 0 <= k < |calls| ensures ConfigMembership(u, calls[k].config) == ConfigMembership(t, calls[k].config) {
      assert MembershipRows(u, calls[k].config.user, calls[k].config.organization)
          == MembershipRows(t, calls[k].config.user, calls[k].config.organization);
    }
  }

  lemma LookUpTracks(calls: seq<Registration>, r: Race, k: nat)
    requires |r.phases| == |calls| && Tracked(calls, r)
    ensures Tracked(calls, Next(calls, r, LookUp(k)))
  {
    hide RowsDrawn, ConfigMembership, Looking, DevelopmentRows;
    if k < |calls| { LookingIs(r.tables, calls[k]); }
  }

  lemma RefusedTracks(calls: seq<Registration>, r: Race, u: Race, k: nat, e: Error)
    requires |r.phases| == |calls| && k < |calls| && Tracked(calls, r) && Ongoing(r.phases[k])
    requires u == Race(r.tables, r.phases[k := Refused(e)])
    ensures Tracked(calls, u)
  {
    hide RowsDrawn, ConfigMembership;
  }

  lemma WriteTracks(calls: seq<Registration>, r: Race, k: nat)
    requires |r.phases| == |calls| && Tracked(calls, r)
    ensures Tracked(calls, Next(calls, r, Write(k)))
  {
    hide Inserting, Updating, OneWritten, Unhindered, Entered, RowsDrawn;
    var u := Next(calls, r, Write(k));
    if k < |calls| && r.phases[k].Absent? {
      if Inserting(r.tables, calls[k]).Ok? {
        InsertWrites(r.tables, calls[k]);
        WrittenTracks(calls, r, u, k, Inserting(r.tables, calls[k]).value.1);
      } else {
        RefusedTracks(calls, r, u, k, Inserting(r.tables, calls[k]).error);
      }
    } else if k < |calls| && r.phases[k].Present? {
      var c, copy := r.phases[k].id, r.phases[k].copy;
      if Updating(r.tables, calls[k], c, copy).Ok? {
        UpdateWrites(r.tables, calls[k], c, copy);
        WrittenTracks(calls, r, u, k, c);
      } else {
        RefusedTracks(calls, r, u, k, Updating(r.tables, calls[k], c, copy).error);
      }
    }
  }

  lemma ActionTracks(calls: seq<Registration>, r: Race, a: Action)
    requires |r.phases| == |calls| && Tracked(calls, r)
    ensures Tracked(calls, Next(calls, r, a))
  {
    hide Tracked, Next;
    match a
    case LookUp(k) => LookUpTracks(calls, r, k);
    case Write(k) => WriteTracks(calls, r, k);
  }

  /** A call without a node that nothing hinders inserts its client, whoever has inserted one in between. */
  lemma InsertSucceeds(calls: seq<Registration>, r: Race, k: nat)
    requires |r.phases| == |calls| && Tracked(calls, r) && k < |calls| && r.phases[k].Absent? && calls[k].node.None?
    ensures Inserting(r.tables, calls[k]).Ok?
  {
    hide ConfigMembership, CopiesMatch, Entered;
    var t1 := NewOAuthClient(r.tables, calls[k].clientId);
    MembershipsStay(calls, r.tables, t1);
  }

  lemma StaysOn(calls: seq<Registration>, r: Race, a: Action, k: int, g: Registration)
    requires |r.phases| == |calls| && Tracked(calls, r) && IsOn(calls, r, k, g)
    ensures IsOn(calls, Next(calls, r, a), k, g)
  {
    hide Tracked, Inserting, Updating, Looking, SameKey;
    if a == Write(k) && r.phases[k].Absent? { InsertSucceeds(calls, r, k); }
  }

  lemma OverlapDoubles(calls: seq<Registration>, r: Race, a: Action)
    requires |r.phases| == |calls| && Overlaps(calls, r, a)
    ensures Doubled(calls, Next(calls, r, a))
  {
    hide Looking;
    var u, k := Next(calls, r, a), a.call;
    var j :| 0 <= j < |calls| && IsAbout(calls, r.phases, j, calls[k]);
    assert IsOn(calls, u, k, calls[k]) && IsOn(calls, u, j, calls[k]);
  }

  ghost predicate Complete(r: Race) {
    forall k :: 0 <= k < |r.phases| ==> !Ongoing(r.phases[k])
  }

  lemma DoubledTwice(calls: seq<Registration>, r: Race)
    requires |r.phases| == |calls| && Entered(calls, r) && Complete(r) && Doubled(calls, r)
    ensures !OneDevelopmentClient(r.tables.clients)
  {
    var j, k, g :| j != k && IsOn(calls, r, j, g) && IsOn(calls, r, k, g);
    var a, b := r.phases[j].id, r.phases[k].id;
    assert a != b by { if j < k { assert r.phases[j].id != r.phases[k].id; } }
    assert calls[j].Fits(r.tables.clients[a]) && calls[k].Fits(r.tables.clients[b]);
  }

  lemma {:induction false} OverlapTwoClients(calls: seq<Registration>, r: Race, actions: seq<Action>)
    requires |r.phases| == |calls| && Tracked(calls, r) && Complete(Execute(calls, r, actions))
    requires Doubled(calls, r) || !NoOverlap(calls, r, actions)
    ensures !OneDevelopmentClient(Execute(calls, r, actions).tables.clients)
    decreases |actions|
  {
    hide Next, Overlaps, RowsDrawn, CopiesMatch, Entered, Unhindered, IsOn, OneDevelopmentClient, Complete;
    if actions == [] {
      DoubledTwice(calls, r);
    } else {
      ActionTracks(calls, r, actions[0]);
      if Overlaps(calls, r, actions[0]) {
        OverlapDoubles(calls, r, actions[0]);
      } else if Doubled(calls, r) {
        var j, k, g :| j != k && IsOn(calls, r, j, g) && IsOn(calls, r, k, g);
        StaysOn(calls, r, actions[0], j, g);
        StaysOn(calls, r, actions[0], k, g);
      }
      OverlapTwoClients(calls, Next(calls, r, actions[0]), actions[1..]);
    }
  }

  /** Exactly when there is one client per release, user, organization and node: in an interleaving at whose end
      every call is answered, and in which nothing else hinders the calls, that is so exactly when no look-up
      without a result comes between another's, about the same clients and without a node, and its insertion. */
  lemma {:induction false} OneClientExactly(t: Tables, calls: seq<Registration>, actions: seq<Action>)
    requires SoundRegistry(t) && Unhindered(calls, Start(t, calls))
             && Complete(Execute(calls, Start(t, calls), actions))
    ensures OneDevelopmentClient(Execute(calls, Start(t, calls), actions).tables.clients)
            <==> NoOverlap(calls, Start(t, calls), actions)
  {
    hide Execute, Next, Overlaps, NoOverlap, SoundRegistry, Unhindered, Complete, OneDevelopmentClient, Coherent,
      Tracked;
    var r := Start(t, calls);
    if NoOverlap(calls, r, actions) {
      StartsCoherent(t, calls);
      NoOverlapOneClient(calls, r, actions);
    } else {
      StartsTracked(t, calls);
      OverlapTwoClients(calls, r, actions);
    }
  }

  lemma StartsTracked(t: Tables, calls: seq<Registration>)
    requires SoundRegistry(t) && Unhindered(calls, Start(t, calls))
    ensures Tracked(calls, Start(t, calls))
  {
    hide Unhindered, OneApp, UniqueReleases, UniqueDevices, OneDevelopmentClient, OneOwner, MappingsOwned, Drawn,
      ClientsAuthorized;
  }

  // ---- Two clients ------------------------------------------------------------------------------------------------

  function Member(): Tables {
    NoTables().(nextId := 3, organizations := map[0 := Organization("org", 0)],
                memberships := map[1 := Membership(0, 0, {}, None)])
  }

  function TwoCalls(): seq<Registration> {
    var m := Manifest("app", "1", None, [], [], None, "");
    [Registration(2, Config(Development, Interface, "x", 0, 0, 0), m, None, None, "idx"),
     Registration(2, Config(Development, Interface, "y", 0, 0, 0), m, None, None, "idy")]
  }

  function Interleaved(): seq<Action> { [LookUp(0), LookUp(1), Write(0), Write(1)] }

  lemma MemberFound(t: Tables, token: string)
    requires t.organizations == Member().organizations && t.memberships == Member().memberships
    ensures ConfigMembership(t, Config(Development, Interface, token, 0, 0, 0)) == Ok(1)
  {
    assert MembershipRows(t, 0, 0) == {1};
  }

  lemma CallsUnhindered()
    ensures SoundRegistry(Member()) && Unhindered(TwoCalls(), Start(Member(), TwoCalls()))
  {
    hide ConfigMembership;
    MemberFound(Member(), "x");
    MemberFound(Member(), "y");
  }

  /** Both calls look up before either inserts. */
  lemma BothAbsent()
    ensures Execute(TwoCalls(), Start(Member(), TwoCalls()), [LookUp(0), LookUp(1)]) == Race(Member(), [Absent, Absent])
  {
    hide Execute;
    var calls, r := TwoCalls(), Start(Member(), TwoCalls());
    assert calls[0].Rows(Member()) == {} && calls[1].Rows(Member()) == {};
    TwoActions(calls, r, LookUp(0), LookUp(1));
    assert Next(calls, r, LookUp(0)) == Race(Member(), [Absent, Waiting]);
  }

  lemma FirstInserted()
    ensures var u := Member().(nextId := 5, oauthClients := map[3 := OAuthClient("idx")],
                               clients := map[4 := TwoCalls()[0].New(1, 3)]);
            Next(TwoCalls(), Race(Member(), [Absent, Absent]), Write(0)) == Race(u, [Phase.Inserted(4), Absent])
  {
    hide ConfigMembership;
    MemberFound(NewOAuthClient(Member(), "idx"), "x");
  }

  lemma SecondInserted(t: Tables)
    requires t == Member().(nextId := 5, oauthClients := map[3 := OAuthClient("idx")],
                            clients := map[4 := TwoCalls()[0].New(1, 3)])
    ensures Next(TwoCalls(), Race(t, [Phase.Inserted(4), Absent]), Write(1)).phases
            == [Phase.Inserted(4), Phase.Inserted(6)]
  {
    hide ConfigMembership;
    MemberFound(NewOAuthClient(t, "idy"), "y");
  }

  lemma NowAmbiguous(t: Tables, g: Registration, a: nat, b: nat)
    requires a in t.clients && b in t.clients && a != b && g.Fits(t.clients[a]) && g.Fits(t.clients[b])
    ensures CreateDevelopmentClient(t, g) == Err(Ambiguous)
  {
    hide First;
    assert a in g.Rows(t) && b in g.Rows(t);
  }

  lemma InsertedThere(calls: seq<Registration>, r: Race, k: nat)
    requires |r.phases| == |calls| && Tracked(calls, r) && k < |calls| && r.phases[k].Inserted?
    ensures r.phases[k].id in r.tables.clients && calls[k].Fits(r.tables.clients[r.phases[k].id])
  {
    hide RowsDrawn, CopiesMatch, Unhindered;
  }

  /** Two registrations of one app that overlap both insert a client, although nothing is wrong with either, and
      from then on registering is refused. */
  lemma TwoClientsAreReached()
    ensures SoundRegistry(Member()) && Unhindered(TwoCalls(), Start(Member(), TwoCalls()))
    ensures var u := Execute(TwoCalls(), Start(Member(), TwoCalls()), Interleaved());
            && u.phases == [Phase.Inserted(4), Phase.Inserted(6)] && !OneDevelopmentClient(u.tables.clients)
            && CreateDevelopmentClient(u.tables, TwoCalls()[0]) == Err(Ambiguous)
  {
    hide Execute, SoundRegistry, Unhindered, Next, Member, TwoCalls, NoOverlap, OneDevelopmentClient, Tracked,
      CreateDevelopmentClient;
    CallsUnhindered();
    BothAbsent();
    FirstInserted();
    var both := Race(Member(), [Absent, Absent]);
    var t := Next(TwoCalls(), both, Write(0)).tables;
    SecondInserted(t);
    TwoActions(TwoCalls(), both, Write(0), Write(1));
    assert Interleaved() == [LookUp(0), LookUp(1)] + [Write(0), Write(1)];
    ExecuteOn(TwoCalls(), Start(Member(), TwoCalls()), [LookUp(0), LookUp(1)], [Write(0), Write(1)]);
    BothOn();
    StartsTracked(Member(), TwoCalls());
    TracksOn(TwoCalls(), Start(Member(), TwoCalls()), [LookUp(0), LookUp(1)]);
    OverlapTwoClients(TwoCalls(), both, [Write(0), Write(1)]);
    TracksOn(TwoCalls(), both, [Write(0), Write(1)]);
    var u := Execute(TwoCalls(), both, [Write(0), Write(1)]);
    InsertedThere(TwoCalls(), u, 0);
    InsertedThere(TwoCalls(), u, 1);
    SameCalls(u.tables.clients[6]);
    NowAmbiguous(u.tables, TwoCalls()[0], 4, 6);
  }

  lemma SameCalls(row: Client)
    ensures TwoCalls()[0].Fits(row) <==> TwoCalls()[1].Fits(row)
  {
  }

  lemma BothOn()
    ensures Doubled(TwoCalls(), Race(Member(), [Absent, Absent]))
  {
    var r := Race(Member(), [Absent, Absent]);
    assert IsOn(TwoCalls(), r, 0, TwoCalls()[0]) && IsOn(TwoCalls(), r, 1, TwoCalls()[0]);
  }

  lemma {:induction false} TracksOn(calls: seq<Registration>, r: Race, actions: seq<Action>)
    requires |r.phases| == |calls| && Tracked(calls, r)
    ensures Tracked(calls, Execute(calls, r, actions))
    decreases |actions|
  {
    hide Tracked, Next;
    if actions != [] {
      ActionTracks(calls, r, actions[0]);
      TracksOn(calls, Next(calls, r, actions[0]), actions[1..]);
    }
  }

  lemma {:induction false} ExecuteOn(calls: seq<Registration>, r: Race, before: seq<Action>, after: seq<Action>)
    requires |r.phases| == |calls|
    ensures Execute(calls, r, before + after) == Execute(calls, Execute(calls, r, before), after)
    decreases |before|
  {
    hide Next;
    if before == [] {
      assert before + after == after;
    } else {
      assert (before + after)[1..] == before[1..] + after;
      ExecuteOn(calls, Next(calls, r, before[0]), before[1..], after);
    }
  }
}
