/** Token requests that overlap: nothing locks a code or a refresh token, so each request looks its credential up,
    issues a token, and deletes or revokes the credential in three steps that others may come between. */
module OAuthRace {
  import opened Prelude
  import opened OAuth

  /** What a request has done.  A request that found its credential goes on with the copy it has read; `entry` is the
      place of its token in the list of honours. */
  datatype Phase =
    | Waiting
    | Looked(row: nat, membership: nat, chain: nat)
    | Served(row: nat, token: nat, entry: nat)
    | Finished(reply: Reply, honour: Option<nat>)

  datatype Race = Race(store: Store, phases: seq<Phase>)

  datatype Action =
    | LookUp(call: nat, now: int)
    | Grant(call: nat, now: int)
    | Finish(call: nat)
    | Admit(event: Event, now: int)

  /** What does not change: the token requests. */
  predicate ValidRequests(requests: seq<Event>) {
    forall k :: 0 <= k < |requests| ==> !requests[k].Authorize?
  }

  function Start(s: Store, requests: seq<Event>): Race {
    Race(s, seq(|requests|, _ => Waiting))
  }

  function Looking(s: Store, e: Event, now: int): Phase
    requires !e.Authorize?
  {
    if e.Exchange? then
      match QueryCode(s, e.code, e.client, now)
      case Ok(c) => Looked(c, s.codes[c].membership, c)
      case Err(reply) => Finished(reply, None)
    else
      match QueryRefresh(s, e.presented, e.client, now)
      case Ok(t) => Looked(t, s.tokens[t].membership, s.tokens[t].chain)
      case Err(reply) => Finished(reply, None)
  }

  function HonourFor(e: Event, row: nat, now: int): Honour
    requires !e.Authorize?
  {
    if e.Exchange? then CodeHonoured(row, now) else RefreshHonoured(row, now)
  }

  function Granting(s: Store, e: Event, p: Phase, now: int): (Store, Phase)
    requires !e.Authorize? && p.Looked?
  {
    if AccessTaken(s, e.access) then (s, Finished(Raised, None))
    else
      (Issue(s, e.client, p.membership, e.access, e.refresh, now,
             p.chain).(honours := s.honours + [HonourFor(e, p.row, now)]),
       Served(p.row, s.nextId, |s.honours|))
  }

  /** Deleting a code that is gone already deletes nothing. */
  function Closing(s: Store, e: Event, row: nat): Store
    requires !e.Authorize?
  {
    if e.Exchange? then s.(codes := s.codes - {row})
    else if row in s.tokens then Revoked(s, row) else s
  }

  /** An action that is not enabled leaves the race as it is. */
  function Next(requests: seq<Event>, r: Race, a: Action): (u: Race)
    requires ValidRequests(requests) && |r.phases| == |requests|
    ensures |u.phases| == |requests|
  {
    match a
    case LookUp(k, now) =>
      if k < |requests| && r.phases[k].Waiting?
      then r.(phases := r.phases[k := Looking(r.store, requests[k], now)])
      else r
    case Grant(k, now) =>
      if k < |requests| && r.phases[k].Looked? then
        var (s, p) := Granting(r.store, requests[k], r.phases[k], now);
        Race(s, r.phases[k := p])
      else r
    case Finish(k) =>
      if k < |requests| && r.phases[k].Served? then
        Race(Closing(r.store, requests[k], r.phases[k].row),
             r.phases[k := Finished(Issued(r.phases[k].token), Some(r.phases[k].entry))])
      else r
    case Admit(e, now) => if e.Authorize? then r.(store := Authorizing(r.store, e, now).0) else r
  }

  function Execute(requests: seq<Event>, r: Race, actions: seq<Action>): (u: Race)
    requires ValidRequests(requests) && |r.phases| == |requests|
    ensures |u.phases| == |requests|
    decreases |actions|
  {
    if actions == [] then r else Execute(requests, Next(requests, r, actions[0]), actions[1..])
  }

  /** One request by itself is the serial step. */
  lemma AloneIsSerial(s: Store, e: Event, now: int)
    requires !e.Authorize?
    ensures var u := Execute([e], Start(s, [e]), [LookUp(0, now), Grant(0, now), Finish(0)]);
            var (v, reply) := OAuth.Step(s, At(now, e));
            u.store == v && u.phases[0].Finished? && u.phases[0].reply == reply
  {
    hide AccessTaken, QueryCode, QueryRefresh, Execute;
    var r := Start(s, [e]);
    ThreeActions([e], r, LookUp(0, now), Grant(0, now), Finish(0));
    var r1 := Next([e], r, LookUp(0, now));
    assert r1.store == s && r1.phases[0] == Looking(s, e, now);
    if r1.phases[0].Looked? && !AccessTaken(s, e.access) {
      var r2 := Next([e], r1, Grant(0, now));
      assert r2 == Race(Granting(s, e, r1.phases[0], now).0, r1.phases[0 := Granting(s, e, r1.phases[0], now).1]);
      AloneServed(s, e, now);
    }
  }

  lemma AloneServed(s: Store, e: Event, now: int)
    requires !e.Authorize? && Looking(s, e, now).Looked? && !AccessTaken(s, e.access)
    ensures var (u, p) := Granting(s, e, Looking(s, e, now), now);
            p.Served? && OAuth.Step(s, At(now, e)) == (Closing(u, e, p.row), Issued(p.token))
  {
    hide AccessTaken, QueryCode, QueryRefresh;
    if e.Exchange? {
      var c := QueryCode(s, e.code, e.client, now).value;
      assert Exchanging(s, e, now).1 == Issued(s.nextId);
    } else {
      var t := QueryRefresh(s, e.presented, e.client, now).value;
      assert Renewing(s, e, now).1 == Issued(s.nextId);
    }
  }

  lemma ThreeActions(requests: seq<Event>, r: Race, a: Action, b: Action, c: Action)
    requires ValidRequests(requests) && |r.phases| == |requests|
    ensures Execute(requests, r, [a, b, c]) == Next(requests, Next(requests, Next(requests, r, a), b), c)
  {
    hide Next;
    var r1 := Next(requests, r, a);
    var r2 := Next(requests, r1, b);
    assert [a, b, c][1..] == [b, c] && [b, c][1..] == [c] && [c][1..] == [];
    assert Execute(requests, r2, [c]) == Next(requests, r2, c);
    assert Execute(requests, r1, [b, c]) == Execute(requests, r2, [c]);
  }

  // ---- Overlaps ---------------------------------------------------------------------------------------------------

  /** The request has found this code, or this refresh token, and has not yet deleted or revoked it. */
  predicate HasFound(requests: seq<Event>, phases: seq<Phase>, k: int, exchange: bool, row: nat)
    requires |phases| == |requests|
  {
    && 0 <= k < |requests| && requests[k].Exchange? == exchange
    && (phases[k].Looked? || phases[k].Served?) && phases[k].row == row
  }

  /** A look-up that finds what another request has found and not yet deleted or revoked. */
  predicate Overlaps(requests: seq<Event>, r: Race, a: Action)
    requires ValidRequests(requests) && |r.phases| == |requests|
  {
    && a.LookUp? && a.call < |requests| && r.phases[a.call].Waiting?
    && var p := Looking(r.store, requests[a.call], a.now);
       && p.Looked?
       && exists j :: 0 <= j < |requests| && HasFound(requests, r.phases, j, requests[a.call].Exchange?, p.row)
  }

  predicate NoOverlap(requests: seq<Event>, r: Race, actions: seq<Action>)
    requires ValidRequests(requests) && |r.phases| == |requests|
    decreases |actions|
  {
    actions != [] ==>
      !Overlaps(requests, r, actions[0]) && NoOverlap(requests, Next(requests, r, actions[0]), actions[1..])
  }

  // ---- Without an overlap nothing is honoured twice ---------------------------------------------------------------

  predicate IsFor(h: Honour, exchange: bool, row: nat) {
    if exchange then h.CodeHonoured? && h.code == row else h.RefreshHonoured? && h.token == row
  }

  /** What was honoured is spent, unless the request it was honoured for is still to delete or revoke it. */
  ghost predicate Spent(requests: seq<Event>, r: Race)
    requires |r.phases| == |requests|
  {
    && (forall i :: 0 <= i < |r.store.honours| && r.store.honours[i].CodeHonoured? ==>
          && r.store.honours[i].code < r.store.nextId
          && (r.store.honours[i].code in r.store.codes ==>
                exists k :: HasFound(requests, r.phases, k, true, r.store.honours[i].code)))
    && (forall i :: 0 <= i < |r.store.honours| && r.store.honours[i].RefreshHonoured? ==>
          && r.store.honours[i].token in r.store.tokens
          && (!r.store.tokens[r.store.honours[i].token].revoked ==>
                exists k :: HasFound(requests, r.phases, k, false, r.store.honours[i].token)))
  }

  ghost predicate Exclusive(requests: seq<Event>, phases: seq<Phase>)
    requires |phases| == |requests|
  {
    forall j, k, exchange, row ::
      HasFound(requests, phases, j, exchange, row) && HasFound(requests, phases, k, exchange, row) ==> j == k
  }

  /** What is found and not yet served was never honoured. */
  ghost predicate FoundFresh(requests: seq<Event>, r: Race)
    requires |r.phases| == |requests|
  {
    forall k :: 0 <= k < |requests| && r.phases[k].Looked? ==>
      && (if requests[k].Exchange? then r.phases[k].row < r.store.nextId else r.phases[k].row in r.store.tokens)
      && forall i :: 0 <= i < |r.store.honours| ==> !IsFor(r.store.honours[i], requests[k].Exchange?, r.phases[k].row)
  }

  ghost predicate RowsDrawn(s: Store) {
    (forall c :: c in s.codes ==> c < s.nextId) && (forall t :: t in s.tokens ==> t < s.nextId)
  }

  ghost predicate Coherent(requests: seq<Event>, r: Race)
    requires |r.phases| == |requests|
  {
    RowsDrawn(r.store) && Spent(requests, r) && Exclusive(requests, r.phases) && FoundFresh(requests, r)
        && HonouredOnce(r.store.honours)
  }

  lemma StartsCoherent(s: Store, requests: seq<Event>)
    requires Valid(s)
    ensures Coherent(requests, Start(s, requests))
  {
    hide OneLive;
  }

  /** Who has found what after one request went on. */
  lemma OthersHaveFound(requests: seq<Event>, before: seq<Phase>, after: seq<Phase>, k: nat)
    requires |before| == |after| == |requests| && k < |requests| && after == before[k := after[k]]
    ensures forall j, exchange, row :: j != k ==>
              (HasFound(requests, after, j, exchange, row) <==> HasFound(requests, before, j, exchange, row))
  {
  }

  /** What a look-up finds is there, and usable. */
  lemma LookedRow(s: Store, e: Event, now: int)
    requires !e.Authorize? && Looking(s, e, now).Looked?
    ensures var row := Looking(s, e, now).row;
            if e.Exchange? then row in s.codes else row in s.tokens && !s.tokens[row].revoked
  {
    hide First;
  }

  lemma NotHonouredYet(requests: seq<Event>, r: Race, exchange: bool, row: nat, i: nat)
    requires |r.phases| == |requests| && Spent(requests, r) && i < |r.store.honours|
    requires if exchange then row in r.store.codes else row in r.store.tokens && !r.store.tokens[row].revoked
    requires forall j :: !HasFound(requests, r.phases, j, exchange, row)
    ensures !IsFor(r.store.honours[i], exchange, row)
  {
  }

  lemma ExclusiveStill(requests: seq<Event>, before: seq<Phase>, after: seq<Phase>, k: nat)
    requires |before| == |after| == |requests| && k < |requests| && Exclusive(requests, before)
    requires forall j, exchange, row :: j != k ==>
             (HasFound(requests, after, j, exchange, row) <==> HasFound(requests, before, j, exchange, row))
    requires after[k].Looked? ==> forall j :: !HasFound(requests, before, j, requests[k].Exchange?, after[k].row)
    requires after[k].Looked? || after[k].Finished?
    ensures Exclusive(requests, after)
  {
    hide HasFound;
    LookedHasFound(requests, after, k);
    forall i, j, exchange, row | HasFound(requests, after, i, exchange, row)
      && HasFound(requests, after, j, exchange, row)
      ensures i == j
    {
    }
  }

  lemma Lookings(s: Store, e: Event, now: int)
    requires !e.Authorize?
    ensures Looking(s, e, now).Looked? || Looking(s, e, now).Finished?
  {
    hide QueryCode, QueryRefresh;
  }

  lemma LookUpKeeps(requests: seq<Event>, r: Race, a: Action)
    requires ValidRequests(requests) && |r.phases| == |requests| && Coherent(requests, r)
    requires a.LookUp? && !Overlaps(requests, r, a)
    ensures Coherent(requests, Next(requests, r, a))
  {
    hide HonouredOnce, Looking, HasFound, IsFor;
    var u := Next(requests, r, a);
    if u != r {
      var k := a.call;
      OthersHaveFound(requests, r.phases, u.phases, k);
      WaitingHasNothing(requests, r.phases, k);
      LookedHasFound(requests, u.phases, k);
      Lookings(r.store, requests[k], a.now);
      if u.phases[k].Looked? {
        LookedRow(r.store, requests[k], a.now);
        forall j ensures !HasFound(requests, r.phases, j, requests[k].Exchange?, u.phases[k].row) {
          OnlyRequests(requests, r.phases, j, requests[k].Exchange?, u.phases[k].row);
        }
        forall i | 0 <= i < |r.store.honours|
          ensures !IsFor(r.store.honours[i], requests[k].Exchange?, u.phases[k].row) {
          NotHonouredYet(requests, r, requests[k].Exchange?, u.phases[k].row, i);
        }
      }
      ExclusiveStill(requests, r.phases, u.phases, k);
    }
  }

  lemma OnlyRequests(requests: seq<Event>, phases: seq<Phase>, j: int, exchange: bool, row: nat)
    requires |phases| == |requests|
    ensures HasFound(requests, phases, j, exchange, row) ==> 0 <= j < |requests|
  {
  }

  lemma WaitingHasNothing(requests: seq<Event>, phases: seq<Phase>, k: nat)
    requires |phases| == |requests| && k < |requests| && (phases[k].Waiting? || phases[k].Finished?)
    ensures forall exchange, row :: !HasFound(requests, phases, k, exchange, row)
  {
  }

  lemma LookedHasFound(requests: seq<Event>, phases: seq<Phase>, k: nat)
    requires |phases| == |requests| && k < |requests|
    ensures forall exchange, row :: HasFound(requests, phases, k, exchange, row) <==>
              (phases[k].Looked? || phases[k].Served?) && exchange == requests[k].Exchange? && row == phases[k].row
  {
  }

  lemma GrantSpent(requests: seq<Event>, r: Race, u: Race, k: nat, h: Honour, row: nat)
    requires |r.phases| == |u.phases| == |requests| && k < |requests| && Spent(requests, r)
    requires forall j, exchange, id ::
               HasFound(requests, u.phases, j, exchange, id) <==> HasFound(requests, r.phases, j, exchange, id)
    requires IsFor(h, requests[k].Exchange?, row) && HasFound(requests, r.phases, k, requests[k].Exchange?, row)
    requires if requests[k].Exchange? then row < r.store.nextId else row in r.store.tokens
    requires u.store.honours == r.store.honours + [h] && u.store.codes == r.store.codes
             && r.store.nextId <= u.store.nextId
    requires forall t :: t in r.store.tokens ==> t in u.store.tokens && u.store.tokens[t] == r.store.tokens[t]
    ensures Spent(requests, u)
  {
    hide HasFound;
    assert HasFound(requests, u.phases, k, requests[k].Exchange?, row);
    forall i | 0 <= i < |r.store.honours| && r.store.honours[i].CodeHonoured?
      && r.store.honours[i].code in r.store.codes
      ensures exists j :: HasFound(requests, u.phases, j, true, r.store.honours[i].code)
    {
      var j :| HasFound(requests, r.phases, j, true, r.store.honours[i].code);
      assert HasFound(requests, u.phases, j, true, r.store.honours[i].code);
    }
    forall i | 0 <= i < |r.store.honours| && r.store.honours[i].RefreshHonoured?
      && !r.store.tokens[r.store.honours[i].token].revoked
      ensures exists j :: HasFound(requests, u.phases, j, false, r.store.honours[i].token)
    {
      var j :| HasFound(requests, r.phases, j, false, r.store.honours[i].token);
      assert HasFound(requests, u.phases, j, false, r.store.honours[i].token);
    }
  }

  /** What other requests have found was not what this one was served for. */
  lemma GrantFresh(requests: seq<Event>, r: Race, k: nat, h: Honour, j: nat)
    requires |r.phases| == |requests| && Exclusive(requests, r.phases) && j < |requests| && k < |requests| && j != k
    requires r.phases[k].Looked? && r.phases[j].Looked? && IsFor(h, requests[k].Exchange?, r.phases[k].row)
    ensures !IsFor(h, requests[j].Exchange?, r.phases[j].row)
  {
    assert HasFound(requests, r.phases, j, requests[j].Exchange?, r.phases[j].row);
    assert HasFound(requests, r.phases, k, requests[k].Exchange?, r.phases[k].row);
  }

  lemma GrantKeeps(requests: seq<Event>, r: Race, a: Action)
    requires ValidRequests(requests) && |r.phases| == |requests| && Coherent(requests, r) && a.Grant?
    ensures Coherent(requests, Next(requests, r, a))
  {
    hide AccessTaken, HasFound, Spent, Exclusive, FoundFresh, HonouredOnce;
    var u := Next(requests, r, a);
    if u != r {
      if AccessTaken(r.store, requests[a.call].access) {
        RaisedKeeps(requests, r, a);
      } else {
        ServedKeeps(requests, r, a);
      }
    }
  }

  lemma RaisedKeeps(requests: seq<Event>, r: Race, a: Action)
    requires ValidRequests(requests) && |r.phases| == |requests| && Coherent(requests, r)
    requires a.Grant? && a.call < |requests| && r.phases[a.call].Looked?
             && AccessTaken(r.store, requests[a.call].access)
    ensures Coherent(requests, Next(requests, r, a))
  {
    hide AccessTaken, HasFound, HonouredOnce, IsFor;
    var u, k := Next(requests, r, a), a.call;
    OthersHaveFound(requests, r.phases, u.phases, k);
    LookedHasFound(requests, r.phases, k);
    WaitingHasNothing(requests, u.phases, k);
    forall i | 0 <= i < |r.store.honours| ensures !IsFor(r.store.honours[i], requests[k].Exchange?, r.phases[k].row) {
      assert r.phases[k].Looked?;
    }
    RaisedSpent(requests, r, u, k);
  }

  lemma RaisedSpent(requests: seq<Event>, r: Race, u: Race, k: nat)
    requires |r.phases| == |u.phases| == |requests| && k < |requests| && Spent(requests, r) && u.store == r.store
    requires r.phases[k].Looked? && forall i :: 0 <= i < |r.store.honours| ==>
               !IsFor(r.store.honours[i], requests[k].Exchange?, r.phases[k].row)
    requires u.phases == r.phases[k := u.phases[k]]
    ensures Spent(requests, u)
  {
    forall i | 0 <= i < |r.store.honours| && r.store.honours[i].CodeHonoured?
      && r.store.honours[i].code in r.store.codes
      ensures exists j :: HasFound(requests, u.phases, j, true, r.store.honours[i].code)
    {
      var j :| HasFound(requests, r.phases, j, true, r.store.honours[i].code);
      assert HasFound(requests, u.phases, j, true, r.store.honours[i].code);
    }
    forall i | 0 <= i < |r.store.honours| && r.store.honours[i].RefreshHonoured?
      && !r.store.tokens[r.store.honours[i].token].revoked
      ensures exists j :: HasFound(requests, u.phases, j, false, r.store.honours[i].token)
    {
      var j :| HasFound(requests, r.phases, j, false, r.store.honours[i].token);
      assert HasFound(requests, u.phases, j, false, r.store.honours[i].token);
    }
  }

  lemma ServedKeeps(requests: seq<Event>, r: Race, a: Action)
    requires ValidRequests(requests) && |r.phases| == |requests| && Coherent(requests, r)
    requires a.Grant? && a.call < |requests| && r.phases[a.call].Looked?
             && !AccessTaken(r.store, requests[a.call].access)
    ensures Coherent(requests, Next(requests, r, a))
  {
    hide AccessTaken, HasFound, Spent, Exclusive;
    var u, k := Next(requests, r, a), a.call;
    var h := HonourFor(requests[k], r.phases[k].row, a.now);
    OthersHaveFound(requests, r.phases, u.phases, k);
    LookedHasFound(requests, r.phases, k);
    LookedHasFound(requests, u.phases, k);
    forall j, exchange, row
      ensures HasFound(requests, u.phases, j, exchange, row) <==> HasFound(requests, r.phases, j, exchange, row)
    {
      if j == k { assert u.phases[k].row == r.phases[k].row; }
    }
    GrantSpent(requests, r, u, k, h, r.phases[k].row);
    SameHolders(requests, r.phases, u.phases);
    forall j | 0 <= j < |requests| && j != k && r.phases[j].Looked?
      ensures !IsFor(h, requests[j].Exchange?, r.phases[j].row) {
      GrantFresh(requests, r, k, h, j);
    }
  }

  lemma SameHolders(requests: seq<Event>, before: seq<Phase>, after: seq<Phase>)
    requires |before| == |after| == |requests| && Exclusive(requests, before)
    requires forall j, exchange, id ::
               HasFound(requests, after, j, exchange, id) <==> HasFound(requests, before, j, exchange, id)
    ensures Exclusive(requests, after)
  {
    hide HasFound;
  }

  lemma FinishKeeps(requests: seq<Event>, r: Race, a: Action)
    requires ValidRequests(requests) && |r.phases| == |requests| && Coherent(requests, r) && a.Finish?
    ensures Coherent(requests, Next(requests, r, a))
  {
    hide HonouredOnce, HasFound;
    var u := Next(requests, r, a);
    if u != r {
      OthersHaveFound(requests, r.phases, u.phases, a.call);
      LookedHasFound(requests, r.phases, a.call);
      WaitingHasNothing(requests, u.phases, a.call);
    }
  }

  lemma AdmitKeeps(requests: seq<Event>, r: Race, a: Action)
    requires ValidRequests(requests) && |r.phases| == |requests| && Coherent(requests, r) && a.Admit?
    ensures Coherent(requests, Next(requests, r, a))
  {
    hide HonouredOnce;
  }

  lemma ActionKeeps(requests: seq<Event>, r: Race, a: Action)
    requires ValidRequests(requests) && |r.phases| == |requests| && Coherent(requests, r) && !Overlaps(requests, r, a)
    ensures Coherent(requests, Next(requests, r, a))
  {
    hide *;
    match a
    case LookUp(_, _) => LookUpKeeps(requests, r, a);
    case Grant(_, _) => GrantKeeps(requests, r, a);
    case Finish(_) => FinishKeeps(requests, r, a);
    case Admit(_, _) => AdmitKeeps(requests, r, a);
  }

  /** In any interleaving in which no look-up finds what another request has found and not yet deleted or
      revoked, no code and no refresh token is honoured twice. */
  lemma {:induction false} NoOverlapHonoursOnce(requests: seq<Event>, r: Race, actions: seq<Action>)
    requires ValidRequests(requests) && |r.phases| == |requests| && Coherent(requests, r)
             && NoOverlap(requests, r, actions)
    ensures Coherent(requests, Execute(requests, r, actions))
            && HonouredOnce(Execute(requests, r, actions).store.honours)
    decreases |actions|
  {
    hide Next, Overlaps, RowsDrawn, Spent, Exclusive, FoundFresh, HonouredOnce;
    if actions != [] {
      ActionKeeps(requests, r, actions[0]);
      NoOverlapHonoursOnce(requests, Next(requests, r, actions[0]), actions[1..]);
    }
  }

  // ---- With an overlap something is -------------------------------------------------------------------------------

  /** Where in the list of honours the request's token is. */
  function EntryOf(p: Phase): Option<nat> {
    match p
    case Served(_, _, entry) => Some(entry)
    case Finished(_, honour) => honour
    case _ => None
  }

  /** Every request that was served has an entry of its own. */
  ghost predicate Entered(requests: seq<Event>, r: Race)
    requires |r.phases| == |requests|
  {
    && (forall k :: 0 <= k < |requests| && EntryOf(r.phases[k]).Some? ==>
        EntryOf(r.phases[k]).value < |r.store.honours|)
    && (forall k :: 0 <= k < |requests| && r.phases[k].Served? ==>
          r.phases[k].entry < |r.store.honours|
              && IsFor(r.store.honours[r.phases[k].entry], requests[k].Exchange?, r.phases[k].row))
    && (forall j, k :: 0 <= j < k < |requests| && EntryOf(r.phases[j]).Some? ==>
          EntryOf(r.phases[j]) != EntryOf(r.phases[k]))
  }

  /** Nobody is given an access token that is taken or that another request is given. */
  ghost predicate FreshAccess(requests: seq<Event>, r: Race)
    requires ValidRequests(requests) && |r.phases| == |requests|
  {
    && (forall k :: 0 <= k < |requests| && (r.phases[k].Waiting? || r.phases[k].Looked?) ==>
          !AccessTaken(r.store, requests[k].access))
    && (forall j, k :: 0 <= j < k < |requests| ==> requests[j].access != requests[k].access)
  }

  /** The request has found the credential, or has been served for it. */
  ghost predicate IsOn(requests: seq<Event>, r: Race, k: int, exchange: bool, row: nat)
    requires |r.phases| == |requests|
  {
    && 0 <= k < |requests| && requests[k].Exchange? == exchange
    && ((r.phases[k].Looked? && r.phases[k].row == row)
        || (EntryOf(r.phases[k]).Some? && EntryOf(r.phases[k]).value < |r.store.honours|
            && IsFor(r.store.honours[EntryOf(r.phases[k]).value], exchange, row)))
  }

  ghost predicate Doubled(requests: seq<Event>, r: Race)
    requires |r.phases| == |requests|
  {
    exists j, k, exchange, row :: j != k && IsOn(requests, r, j, exchange, row) && IsOn(requests, r, k, exchange, row)
  }

  lemma AccessStaysFree(s: Store, u: Store, access: string)
    requires !AccessTaken(s, access)
    requires forall t :: t in u.tokens ==>
               (t in s.tokens && s.tokens[t].access == u.tokens[t].access) || u.tokens[t].access != access
    ensures !AccessTaken(u, access)
  {
  }

  lemma ActionKeepsAccess(requests: seq<Event>, r: Race, a: Action)
    requires ValidRequests(requests) && |r.phases| == |requests| && FreshAccess(requests, r)
    ensures FreshAccess(requests, Next(requests, r, a))
  {
    hide AccessTaken, QueryCode, QueryRefresh;
    var u := Next(requests, r, a);
    forall k | 0 <= k < |requests| && (u.phases[k].Waiting? || u.phases[k].Looked?)
      ensures !AccessTaken(u.store, requests[k].access) {
      AccessStaysFree(r.store, u.store, requests[k].access);
    }
  }

  lemma ActionEnters(requests: seq<Event>, r: Race, a: Action)
    requires ValidRequests(requests) && |r.phases| == |requests| && Entered(requests, r)
    ensures Entered(requests, Next(requests, r, a))
  {
    hide AccessTaken, QueryCode, QueryRefresh;
  }

  lemma StaysOn(requests: seq<Event>, r: Race, a: Action, k: int, exchange: bool, row: nat)
    requires ValidRequests(requests) && |r.phases| == |requests| && FreshAccess(requests, r)
             && IsOn(requests, r, k, exchange, row)
    ensures IsOn(requests, Next(requests, r, a), k, exchange, row)
  {
    hide AccessTaken, QueryCode, QueryRefresh;
  }

  lemma OverlapDoubles(requests: seq<Event>, r: Race, a: Action)
    requires ValidRequests(requests) && |r.phases| == |requests| && Entered(requests, r) && Overlaps(requests, r, a)
    ensures Doubled(requests, Next(requests, r, a))
  {
    hide QueryCode, QueryRefresh;
    var u, k := Next(requests, r, a), a.call;
    var p := Looking(r.store, requests[k], a.now);
    var j :| 0 <= j < |requests| && HasFound(requests, r.phases, j, requests[k].Exchange?, p.row);
    assert IsOn(requests, u, k, requests[k].Exchange?, p.row);
    assert IsOn(requests, u, j, requests[k].Exchange?, p.row);
  }

  ghost predicate Complete(r: Race) {
    forall k :: 0 <= k < |r.phases| ==> r.phases[k].Finished?
  }

  lemma DoubledHonoursTwice(requests: seq<Event>, r: Race)
    requires |r.phases| == |requests| && Entered(requests, r) && Complete(r) && Doubled(requests, r)
    ensures !HonouredOnce(r.store.honours)
  {
    var j, k, exchange, row :| j != k && IsOn(requests, r, j, exchange, row) && IsOn(requests, r, k, exchange, row);
    var m, n := EntryOf(r.phases[j]).value, EntryOf(r.phases[k]).value;
    assert m != n by { if j < k { assert EntryOf(r.phases[j]) != EntryOf(r.phases[k]); } }
    assert IsFor(r.store.honours[m], exchange, row) && IsFor(r.store.honours[n], exchange, row);
  }

  lemma {:induction false} OverlapHonoursTwice(requests: seq<Event>, r: Race, actions: seq<Action>)
    requires ValidRequests(requests) && |r.phases| == |requests| && Entered(requests, r) && FreshAccess(requests, r)
    requires Complete(Execute(requests, r, actions))
    requires Doubled(requests, r) || !NoOverlap(requests, r, actions)
    ensures !HonouredOnce(Execute(requests, r, actions).store.honours)
    decreases |actions|
  {
    hide Next, Overlaps, Entered, FreshAccess, IsOn, HonouredOnce, Complete;
    if actions == [] {
      DoubledHonoursTwice(requests, r);
    } else {
      var u := Next(requests, r, actions[0]);
      ActionEnters(requests, r, actions[0]);
      ActionKeepsAccess(requests, r, actions[0]);
      if Overlaps(requests, r, actions[0]) {
        OverlapDoubles(requests, r, actions[0]);
      } else if Doubled(requests, r) {
        var j, k, exchange, row :| j != k && IsOn(requests, r, j, exchange, row) && IsOn(requests, r, k, exchange, row);
        StaysOn(requests, r, actions[0], j, exchange, row);
        StaysOn(requests, r, actions[0], k, exchange, row);
      }
      OverlapHonoursTwice(requests, u, actions[1..]);
    }
  }

  /** Exactly when no credential is honoured twice: in an interleaving at whose end every request is answered,
      and in which no access token is taken, that is so exactly when no look-up finds a credential between
      another request's look-up of it and its deletion or revocation. */
  lemma {:induction false} HonouredOnceExactly(s: Store, requests: seq<Event>, actions: seq<Action>)
    requires Valid(s) && ValidRequests(requests) && FreshAccess(requests, Start(s, requests))
    requires Complete(Execute(requests, Start(s, requests), actions))
    ensures HonouredOnce(Execute(requests, Start(s, requests), actions).store.honours)
            <==> NoOverlap(requests, Start(s, requests), actions)
  {
    hide Execute, Next, Overlaps, NoOverlap, Valid, FreshAccess, Complete, HonouredOnce, Coherent;
    var r := Start(s, requests);
    StartsCoherent(s, requests);
    if NoOverlap(requests, r, actions) {
      NoOverlapHonoursOnce(requests, r, actions);
    } else {
      StartsEntered(s, requests);
      OverlapHonoursTwice(requests, r, actions);
    }
  }

  lemma StartsEntered(s: Store, requests: seq<Event>)
    ensures Entered(requests, Start(s, requests))
  {
  }

  // ---- A code honoured twice --------------------------------------------------------------------------------------

  function OneCode(): Store {
    Store(1, map[0 := Code("c", "app", 7, 0)], map[], [])
  }

  function TwoExchanges(): seq<Event> {
    [Exchange("c", "app", "a", "ra"), Exchange("c", "app", "b", "rb")]
  }

  function Interleaved(): seq<Action> {
    [LookUp(0, 1), LookUp(1, 1), Grant(0, 1), Grant(1, 1), Finish(0), Finish(1)]
  }

  function FirstToken(): Token { Token("app", 7, "a", "ra", false, 1, 0) }
  function SecondToken(): Token { Token("app", 7, "b", "rb", false, 1, 0) }

  /** The two look-ups, and then the first token. */
  function Midway(): Race {
    Race(Store(2, OneCode().codes, map[1 := FirstToken()], [CodeHonoured(0, 1)]), [Served(0, 1, 0), Looked(0, 7, 0)])
  }

  lemma BothFindTheCode()
    ensures Execute(TwoExchanges(), Start(OneCode(), TwoExchanges()), [LookUp(0, 1), LookUp(1, 1), Grant(0, 1)])
            == Midway()
  {
    hide Execute;
    var requests, r := TwoExchanges(), Start(OneCode(), TwoExchanges());
    assert CodeRows(OneCode(), "c", "app") == {0} by { assert 0 in CodeRows(OneCode(), "c", "app"); }
    var r1 := Next(requests, r, LookUp(0, 1));
    assert r1 == Race(OneCode(), [Looked(0, 7, 0), Waiting]);
    var r2 := Next(requests, r1, LookUp(1, 1));
    assert r2 == Race(OneCode(), [Looked(0, 7, 0), Looked(0, 7, 0)]);
    ThreeActions(requests, r, LookUp(0, 1), LookUp(1, 1), Grant(0, 1));
  }

  lemma BothAreServed()
    ensures Execute(TwoExchanges(), Midway(), [Grant(1, 1), Finish(0), Finish(1)])
            == Race(Store(3, map[], map[1 := FirstToken(), 2 := SecondToken()],
                          [CodeHonoured(0, 1), CodeHonoured(0, 1)]),
                    [Finished(Issued(1), Some(0)), Finished(Issued(2), Some(1))])
  {
    hide Execute;
    var r4 := Next(TwoExchanges(), Midway(), Grant(1, 1));
    assert r4 == Race(Store(3, OneCode().codes, map[1 := FirstToken(), 2 := SecondToken()],
                            [CodeHonoured(0, 1), CodeHonoured(0, 1)]),
                      [Served(0, 1, 0), Served(0, 2, 1)]);
    var r5 := Next(TwoExchanges(), r4, Finish(0));
    assert r5 == Race(r4.store.(codes := map[]), [Finished(Issued(1), Some(0)), Served(0, 2, 1)]);
    ThreeActions(TwoExchanges(), Midway(), Grant(1, 1), Finish(0), Finish(1));
  }

  lemma FreshAtStart()
    ensures Valid(OneCode()) && ValidRequests(TwoExchanges())
            && FreshAccess(TwoExchanges(), Start(OneCode(), TwoExchanges()))
  {
  }

  /** Two exchanges of one code that overlap are both answered with a token. */
  lemma CodeHonouredTwice()
    ensures Valid(OneCode()) && ValidRequests(TwoExchanges())
            && FreshAccess(TwoExchanges(), Start(OneCode(), TwoExchanges()))
    ensures var u := Execute(TwoExchanges(), Start(OneCode(), TwoExchanges()), Interleaved());
            && Complete(u) && u.phases[0].reply == Issued(1) && u.phases[1].reply == Issued(2)
            && u.store.honours == [CodeHonoured(0, 1), CodeHonoured(0, 1)]
  {
    hide Execute, Valid, FreshAccess, Midway;
    FreshAtStart();
    BothFindTheCode();
    BothAreServed();
    assert Interleaved() == [LookUp(0, 1), LookUp(1, 1), Grant(0, 1)] + [Grant(1, 1), Finish(0), Finish(1)];
    ExecuteOn(TwoExchanges(), Start(OneCode(), TwoExchanges()), [LookUp(0, 1), LookUp(1, 1), Grant(0, 1)],
              [Grant(1, 1), Finish(0), Finish(1)]);
  }

  lemma {:induction false} ExecuteOn(requests: seq<Event>, r: Race, before: seq<Action>, after: seq<Action>)
    requires ValidRequests(requests) && |r.phases| == |requests|
    ensures Execute(requests, r, before + after) == Execute(requests, Execute(requests, r, before), after)
    decreases |before|
  {
    hide Next;
    if before == [] {
      assert before + after == after;
    } else {
      assert (before + after)[1..] == before[1..] + after;
      ExecuteOn(requests, Next(requests, r, before[0]), before[1..], after);
    }
  }
}
