/** What whole runs of the client lifecycle guarantee. */
module Traces {
  import opened Prelude
  import opened Rows
  import opened Clients
  import opened DeviceCodes
  import opened Invariants
  import opened Lifecycle
  import Rendering

  // ---- Uniqueness, ownership and agreement over runs --------------------------------------------

  predicate AllDistinct(es: seq<Timed>) {
    forall i :: 0 <= i < |es| ==> DistinctEvent(es[i])
  }

  /** How a step changes the device codes: only `Start` adds one, only a poll of its own code removes
      one, and a code keeps its text, manifest, expiry, denial and acceptance. */
  ghost predicate CodesEvolve(before: map<nat, DeviceCode>, after: map<nat, DeviceCode>, e: Event) {
    && (forall k :: k in after && k !in before ==>
          e.Start? && after[k].code == e.code && after[k].manifest == e.staging.manifest)
    && (forall k :: k in before && k !in after ==> e == PollCode(before[k].code))
    && (forall k :: k in before && k in after ==>
          && after[k].code == before[k].code && after[k].manifest == before[k].manifest
          && after[k].expiresAt == before[k].expiresAt
          && (before[k].denied ==> after[k].denied) && (before[k].client.Some? ==> after[k].client.Some?))
  }

  lemma SameCodes(codes: map<nat, DeviceCode>, e: Event)
    ensures CodesEvolve(codes, codes, e)
  {
  }

  lemma CodePut(codes: map<nat, DeviceCode>, k: nat, row: DeviceCode, e: Event)
    requires k in codes && row.code == codes[k].code && row.manifest == codes[k].manifest
             && row.expiresAt == codes[k].expiresAt
    requires (codes[k].denied ==> row.denied) && (codes[k].client.Some? ==> row.client.Some?)
    ensures CodesEvolve(codes, codes[k := row], e)
  {
  }

  lemma CodeAdded(codes: map<nat, DeviceCode>, k: nat, row: DeviceCode, e: Event)
    requires k !in codes && e.Start? && row.code == e.code && row.manifest == e.staging.manifest
    ensures CodesEvolve(codes, codes[k := row], e)
  {
  }

  lemma CodeRemoved(codes: map<nat, DeviceCode>, k: nat)
    requires k in codes
    ensures CodesEvolve(codes, codes - {k}, PollCode(codes[k].code))
  {
  }

  lemma NextIsNew(t: Tables)
    requires Drawn(t.codes, t.nextId)
    ensures t.nextId !in t.codes
  {
  }

  lemma StepEvolvesCodes(w: Crypto, t: Tables, e: Timed)
    requires Drawn(t.codes, t.nextId)
    ensures CodesEvolve(t.codes, Step(w, t, e).0.codes, e.event)
  {
    hide CreateClient, Redeem, StartDeviceCode, AcceptDeviceCode, Deny, Challenge, CodesEvolve, TokenRows, Drawn, Get,
      First;
    match e.event
    case Start(g, code, download) => StartEvolves(t, e);
    case Accept(row, acceptance) => AcceptEvolves(w, t, e.event);
    case DenyCode(k) => DenyEvolves(t, e.event);
    case PollCode(code) => PollEvolves(t, code, e.now);
    case _ => OthersLeaveCodes(w, t, e);
  }

  lemma OthersLeaveCodes(w: Crypto, t: Tables, e: Timed)
    requires e.event.Register? || e.event.Issue? || e.event.Redeeming?
    ensures CodesEvolve(t.codes, Step(w, t, e).0.codes, e.event)
  {
    hide CreateClient, Redeem, IssueToken, StartDeviceCode, AcceptDeviceCode, Deny, Challenge, CodesEvolve;
    SameCodes(t.codes, e.event);
  }

  lemma StartEvolves(t: Tables, e: Timed)
    requires e.event.Start? && Drawn(t.codes, t.nextId)
    ensures CodesEvolve(t.codes,
          Outcome(t, StartDeviceCode(t, e.event.staging, e.event.code, e.event.download, e.now)).0.codes, e.event)
  {
    hide CodesEvolve, CodeRows, FetchLogo, Drawn;
    var g := e.event.staging;
    NextIsNew(t);
    SameCodes(t.codes, e.event);
    var row := DeviceCode(e.event.code, g.manifest, g.kind, g.role, g.redirectUris, e.now + g.seconds, false, None);
    CodeAdded(t.codes, t.nextId, row, e.event);
  }

  lemma DenyEvolves(t: Tables, e: Event)
    requires e.DenyCode?
    ensures CodesEvolve(t.codes, Deny(t, e.row).codes, e)
  {
    hide CodesEvolve;
    SameCodes(t.codes, e);
    if e.row in t.codes { CodePut(t.codes, e.row, t.codes[e.row].(denied := true), e); }
  }

  lemma AcceptEvolves(w: Crypto, t: Tables, e: Event)
    requires e.Accept?
    ensures CodesEvolve(t.codes, Outcome(t, AcceptDeviceCode(w, t, e.row, e.acceptance)).0.codes, e)
  {
    hide ReuseOrCreate, GetOrCreateNode, CodesEvolve;
    SameCodes(t.codes, e);
    if AcceptDeviceCode(w, t, e.row, e.acceptance).Ok? {
      CodePut(t.codes, e.row, AcceptDeviceCode(w, t, e.row, e.acceptance).value.0.codes[e.row], e);
    }
  }

  lemma PollEvolves(t: Tables, code: string, now: int)
    ensures CodesEvolve(t.codes, Challenge(t, code, now).0.codes, PollCode(code))
  {
    hide CodesEvolve, CodeRows, First, PollRow;
    match Get(CodeRows(t, code))
    case Found(k) => PollRowEvolves(t, code, k, now);
    case Missing => SameCodes(t.codes, PollCode(code));
    case Many => SameCodes(t.codes, PollCode(code));
  }

  lemma PollRowEvolves(t: Tables, code: string, k: nat, now: int)
    requires CodeRows(t, code) == {k}
    ensures k in t.codes && CodesEvolve(t.codes, PollRow(t, k, now).0.codes, PollCode(code))
  {
    hide CodesEvolve, CodeRows, PollRow;
    CodeOf(t, code, k);
    if PollRow(t, k, now).0 == t {
      SameCodes(t.codes, PollCode(code));
    } else {
      CodeRemoved(t.codes, k);
    }
  }

  lemma CodeOf(t: Tables, code: string, k: nat)
    requires CodeRows(t, code) == {k}
    ensures k in t.codes && t.codes[k].code == code
  {
    assert k in CodeRows(t, code);
  }

  lemma {:induction false} RunKeeps(w: Crypto, t: Tables, es: seq<Timed>, distinct: bool)
    requires Sound(t) && (distinct ==> AllDistinct(es) && DistinctCodes(t.codes))
    ensures Keeps(t, Run(w, t, es), distinct)
    decreases |es|
  {
    hide Sound, Extends, StatusesAgree, Step, DistinctEvent, CodesEvolve, Rendering.DistinctKeys, Drawn;
    if es == [] {
      Unchanged(t);
    } else {
      var u := Step(w, t, es[0]).0;
      StepKeeps(w, t, es[0], distinct);
      CodesDrawn(t);
      StepEvolvesCodes(w, t, es[0]);
      if distinct {
        DistinctCodesStay(t.codes, u.codes, es[0]);
      }
      RunKeeps(w, u, es[1..], distinct);
      KeepsTransitive(t, u, Run(w, t, es), distinct);
    }
  }

  lemma CodesDrawn(t: Tables)
    requires Sound(t)
    ensures Drawn(t.codes, t.nextId)
  {
  }

  lemma DistinctCodesStay(before: map<nat, DeviceCode>, after: map<nat, DeviceCode>, e: Timed)
    requires CodesEvolve(before, after, e.event) && DistinctCodes(before) && DistinctEvent(e)
    ensures DistinctCodes(after)
  {
    hide Rendering.DistinctKeys;
  }

  /** In every reachable state there is at most one development client per release, user,
      organization and node, a missing node included. */
  lemma OneClientPerNode(w: Crypto, t: Tables, es: seq<Timed>, release: nat, user: nat, organization: nat,
                         node: Option<nat>)
    requires Sound(t)
    ensures var rows := DevelopmentRows(Run(w, t, es), release, user, organization, node);
            forall a, b | a in rows && b in rows :: a == b
  {
    hide Run, Drawn, OneApp, UniqueReleases, UniqueDevices, MappingsOwned, ClientsAuthorized, SoundVouchers, Extends;
    RunKeeps(w, t, es, false);
  }

  /** No run leaves an OAuth2 client behind that no client owns, and every client keeps its own. */
  lemma {:induction false} NoStrayOAuthClients(w: Crypto, t: Tables, es: seq<Timed>)
    requires Sound(t)
    ensures var u := Run(w, t, es);
            && (forall o :: o in u.oauthClients && o !in t.oauthClients ==>
                  exists c :: c in u.clients && u.clients[c].oauthClient == o)
            && (forall c :: c in t.clients ==> c in u.clients && u.clients[c].oauthClient == t.clients[c].oauthClient)
  {
    hide Run, Sound;
    RunKeeps(w, t, es, false);
  }

  /** Where every manifest lists each key once, the granted keys of every client are its mapped keys
      in every reachable state, re-registrations that compose nothing included. */
  lemma {:induction false} GrantedIsMapped(w: Crypto, t: Tables, es: seq<Timed>, c: nat)
    requires Sound(t) && StatusesAgree(t) && AllDistinct(es) && DistinctCodes(t.codes)
    requires c in Run(w, t, es).clients
    ensures var u := Run(w, t, es);
            Rendering.MappingsOf(u, c).Keys == set k | k in u.clients[c].statuses
                && u.clients[c].statuses[k] == Status.Granted
  {
    hide Run, Sound, Extends;
    RunKeeps(w, t, es, true);
  }

  /** No two redeem tokens ever hold the same client. */
  lemma {:induction false} TokensStayInjective(w: Crypto, t: Tables, es: seq<Timed>, a: nat, b: nat)
    requires Sound(t)
    ensures var u := Run(w, t, es);
            a in u.tokens && b in u.tokens && u.tokens[a].client.Some? && u.tokens[a].client == u.tokens[b].client ==>
              a == b
  {
    hide Run, SoundRegistry, Extends, UniqueTokens, TokensHold, UniqueCodes, CodesHold;
    RunKeeps(w, t, es, false);
  }

  // ---- Polling a device code --------------------------------------------------------------------

  /** The place of an answer in `pending* granted* (expired|denied)? error*`. */
  function Rank(p: Poll): nat {
    match p
    case PollPending => 0
    case PollGranted(_) => 1
    case PollExpired => 2
    case PollDenied => 2
    case PollError => 3
  }

  /** Exactly the words of that expression: ranks never fall and rank 2 comes once. */
  predicate InOrder(polls: seq<Poll>) {
    forall i, j :: 0 <= i < j < |polls| ==>
      Rank(polls[i]) <= Rank(polls[j]) && (Rank(polls[i]) == 2 ==> Rank(polls[j]) == 3)
  }

  function Polls(w: Crypto, t: Tables, es: seq<Timed>, code: string): seq<Poll>
    decreases |es|
  {
    if es == [] then []
    else
      var (u, reply) := Step(w, t, es[0]);
      (if es[0].event == PollCode(code) && reply.Polled? then [reply.poll] else []) + Polls(w, u, es[1..], code)
  }

  /** The clock never goes back, and nobody draws this code again. */
  predicate Clocked(es: seq<Timed>, now: int) {
    forall i :: 0 <= i < |es| ==> now <= es[i].now && forall j :: i < j < |es| ==> es[i].now <= es[j].now
  }

  predicate NotDrawn(es: seq<Timed>, code: string) {
    forall i :: 0 <= i < |es| ==> !(es[i].event.Start? && es[i].event.code == code)
  }

  /** The rank of the answer that a poll would get. */
  function Stage(t: Tables, code: string, now: int): nat {
    match Get(CodeRows(t, code))
    case Found(k) =>
      assert k in CodeRows(t, code);
      var row := t.codes[k];
      if now > row.expiresAt || row.denied then 2 else if row.client.Some? then 1 else 0
    case _ => 3
  }

  lemma StageOf(t: Tables, code: string, k: nat, now: int)
    requires UniqueCodes(t.codes) && k in t.codes && t.codes[k].code == code
    ensures Stage(t, code, now) == var row := t.codes[k];
              if now > row.expiresAt || row.denied then 2 else if row.client.Some? then 1 else 0
  {
    assert k in CodeRows(t, code);
  }

  lemma NoStage(t: Tables, code: string, now: int)
    requires forall k :: k in t.codes ==> t.codes[k].code != code
    ensures Stage(t, code, now) == 3
  {
    assert CodeRows(t, code) == {};
  }

  /** No step takes a code back to an earlier stage. */
  lemma StageNeverFalls(w: Crypto, t: Tables, e: Timed, code: string, later: int)
    requires Sound(t) && e.now <= later && !(e.event.Start? && e.event.code == code)
    ensures Stage(t, code, e.now) <= Stage(Step(w, t, e).0, code, later)
  {
    hide Step, SoundRegistry, SoundVouchers, Stage, CodesEvolve, Extends, StatusesAgree;
    var u := Step(w, t, e).0;
    StepKeeps(w, t, e, false);
    CodesUnique(t);
    CodesUnique(u);
    StepEvolvesCodes(w, t, e);
    if k :| k in u.codes && u.codes[k].code == code {
      StageOf(u, code, k, later);
      CodeBefore(t.codes, u.codes, e.event, k);
      StageOf(t, code, k, e.now);
    } else {
      NoStage(u, code, later);
      StageAtMost(t, code, e.now);
    }
  }

  lemma CodesUnique(t: Tables)
    requires Sound(t)
    ensures UniqueCodes(t.codes) && Drawn(t.codes, t.nextId)
  {
  }

  lemma StageAtMost(t: Tables, code: string, now: int)
    ensures Stage(t, code, now) <= 3
  {
  }

  lemma CodeBefore(before: map<nat, DeviceCode>, after: map<nat, DeviceCode>, e: Event, k: nat)
    requires CodesEvolve(before, after, e) && k in after && !(e.Start? && e.code == after[k].code)
    ensures k in before && before[k].code == after[k].code && before[k].expiresAt == after[k].expiresAt
    ensures before[k].denied ==> after[k].denied
    ensures before[k].client.Some? ==> after[k].client.Some?
  {
  }

  /** A poll answers with the stage, and a terminal answer removes the code. */
  lemma PollAnswersStage(t: Tables, code: string, now: int, later: int)
    requires Sound(t)
    ensures var (u, p) := Challenge(t, code, now);
            Rank(p) == Stage(t, code, now) && (Rank(p) == 2 ==> Stage(u, code, later) == 3)
  {
    hide Sound, CodeRows, First;
    match Get(CodeRows(t, code))
    case Found(k) => PollRowAnswers(t, code, k, now, later);
    case Missing =>
    case Many =>
  }

  lemma PollRowAnswers(t: Tables, code: string, k: nat, now: int, later: int)
    requires Sound(t) && CodeRows(t, code) == {k}
    ensures k in t.codes
    ensures var (u, p) := PollRow(t, k, now);
            Rank(p) == Stage(t, code, now) && (Rank(p) == 2 ==> Stage(u, code, later) == 3)
  {
    hide SoundRegistry, UniqueTokens, OneTokenPerClient, TokensHold, UniqueMemberships, UniqueScopes, Drawn, Stage;
    CodeOf(t, code, k);
    StageOf(t, code, k, now);
    NoStage(DropCode(t, k), code, later);
  }

  /** The answers to polls of one code form `pending* granted* (expired|denied)? error*`, starting no
      earlier than the stage the code is in. */
  lemma {:induction false} PollsInOrder(w: Crypto, t: Tables, es: seq<Timed>, code: string, now: int)
    requires Sound(t) && Clocked(es, now) && NotDrawn(es, code)
    ensures InOrder(Polls(w, t, es, code))
    ensures forall i :: 0 <= i < |Polls(w, t, es, code)| ==> Stage(t, code, now) <= Rank(Polls(w, t, es, code)[i])
    decreases |es|
  {
    hide Sound, Step, Stage, Extends, StatusesAgree, CodesEvolve;
    if es != [] {
      var e := es[0];
      var u := Step(w, t, e).0;
      StepKeeps(w, t, e, false);
      assert Clocked(es[1..], e.now);
      assert NotDrawn(es[1..], code);
      PollsInOrder(w, u, es[1..], code, e.now);
      StageNeverFalls(w, t, e, code, e.now);
      StageGrows(t, code, now, e.now);
      PollStep(w, t, e, code);
    }
  }

  lemma StageGrows(t: Tables, code: string, now: int, later: int)
    requires now <= later
    ensures Stage(t, code, now) <= Stage(t, code, later)
  {
  }

  lemma PollStep(w: Crypto, t: Tables, e: Timed, code: string)
    requires Sound(t)
    ensures var (u, reply) := Step(w, t, e);
            e.event == PollCode(code) && reply.Polled? ==>
              Rank(reply.poll) == Stage(t, code, e.now) && (Rank(reply.poll) == 2 ==> Stage(u, code, e.now) == 3)
  {
    hide Sound, Stage, Challenge, CreateClient, Redeem, IssueToken, StartDeviceCode, AcceptDeviceCode, Deny;
    if e.event.PollCode? {
      PollAnswersStage(t, e.event.code, e.now, e.now);
    }
  }

  /** Nothing is granted after the code's expiry, nor once it has been denied. */
  lemma NoGrantAfterEnd(w: Crypto, t: Tables, es: seq<Timed>, code: string, k: nat, now: int)
    requires Sound(t) && Clocked(es, now) && NotDrawn(es, code)
    requires k in t.codes && t.codes[k].code == code && (now > t.codes[k].expiresAt || t.codes[k].denied)
    ensures forall i :: 0 <= i < |Polls(w, t, es, code)| ==> !Polls(w, t, es, code)[i].PollGranted?
  {
    hide Sound, Stage, Polls;
    CodesUnique(t);
    StageOf(t, code, k, now);
    PollsInOrder(w, t, es, code, now);
  }
}
