/** Device codes, said of the rows themselves: what staging, accepting and denying leave, and what every poll
    answers. */
module Accepting {
  import opened Prelude
  import opened Rows
  import opened Clients
  import opened DeviceCodes
  import opened Invariants
  import opened Requirements
  import opened Registrations
  import opened Lifecycle
  import Rendering
  import Tokens
  import Traces

  // ---- Staging and denying ----------------------------------------------------------------------------------------

  predicate HasCode(t: Tables, k: nat, code: string) {
    k in t.codes && t.codes[k].code == code
  }

  /** A new code, pending until its time is over. */
  ghost predicate StagedAs(t: Tables, u: Tables, k: nat, g: Staging, code: string, now: int) {
    && k !in t.codes && k in u.codes && u == t.(nextId := u.nextId, codes := t.codes[k := u.codes[k]])
    && u.codes[k].code == code && u.codes[k].manifest == g.manifest && u.codes[k].kind == g.kind
    && u.codes[k].role == g.role && u.codes[k].redirectUris == g.redirectUris
    && u.codes[k].expiresAt == now + g.seconds && !u.codes[k].denied && u.codes[k].client.None?
  }

  /** Staging succeeds exactly where the logo can be fetched and nobody has drawn the code. */
  lemma StartsAs(t: Tables, g: Staging, code: string, download: Download, now: int)
    requires Sound(t)
    ensures StartDeviceCode(t, g, code, download, now).Ok? <==>
              && (g.manifest.logo.None? || g.manifest.logo.value == "" || download.Fetched?)
              && forall k :: !HasCode(t, k, code)
    ensures match StartDeviceCode(t, g, code, download, now)
            case Ok((u, k)) => StagedAs(t, u, k, g, code, now)
            case Err(_) => true
  {
    hide Sound, Drawn;
    Traces.CodesDrawn(t);
    Traces.NextIsNew(t);
    LogoFetched(g.manifest, download);
    forall k ensures HasCode(t, k, code) <==> k in CodeRows(t, code) {
    }
    if StartDeviceCode(t, g, code, download, now).Ok? {
      assert StartDeviceCode(t, g, code, download, now).value.0.codes
             == t.codes[t.nextId := DeviceCode(code, g.manifest, g.kind, g.role, g.redirectUris, now + g.seconds,
                                               false, None)];
    }
  }

  /** Denying marks the one code, and changes nothing where there is none. */
  lemma DeniesAs(t: Tables, k: nat)
    ensures var u := Deny(t, k);
            && u == t.(codes := u.codes) && u.codes.Keys == t.codes.Keys
            && (forall j :: j in t.codes ==> u.codes[j] == if j == k then t.codes[j].(denied := true) else t.codes[j])
  {
    if k in t.codes {
      assert Deny(t, k).codes == t.codes[k := t.codes[k].(denied := true)];
    } else {
      assert Deny(t, k) == t;
    }
  }

  // ---- Accepting --------------------------------------------------------------------------------------------------

  /** The redirects as they are compared: the text of a one-element tuple that holds them joined by spaces. */
  function RedirectsOf(w: Crypto, uris: seq<string>): string {
    "(" + w.repr(Tokens.Join(" ", uris)) + ",)"
  }

  /** What is looked for when a code is accepted. */
  function Wanted(w: Crypto, row: DeviceCode, organization: nat, a: Acceptance): Ask {
    Ask(row.manifest, row.kind, a.user, organization, a.composition, RedirectsOf(w, row.redirectUris))
  }

  /** What is registered when no client fits. */
  function OrderOf(row: DeviceCode, organization: nat, a: Acceptance): Order {
    Order(row.manifest, Config(Development, row.role, a.newToken, a.user, a.user, organization),
          a.user, organization, Some(a.composition), a.declined, a.draw)
  }

  /** The first client that fits is composed again, for who accepts and with what is declined; where none does, one is
      registered. */
  ghost predicate TakenAs(w: Crypto, t: Tables, u: Tables, c: nat, row: DeviceCode, organization: nat, a: Acceptance) {
    || (&& DevicesKept(w, t, u, row.manifest, organization)
        && ComposedInto(w, t.(nextId := u.nextId, devices := u.devices), u, c,
                        Party(a.user, Some(a.composition), a.declined), row.manifest.requirements)
        && exists node :: NodeAs(w, u, row.manifest, organization, node)
                          && FirstFitting(t, c, Wanted(w, row, organization, a), node))
    || (&& row.kind == Development && NoneFits(w, t, Wanted(w, row, organization, a))
        && RegisteredAs(w, t, u, c, OrderOf(row, organization, a)))
  }

  /** The code holds the client that was taken, in the organization of the chosen composition. */
  ghost predicate AcceptedAs(w: Crypto, t: Tables, u: Tables, c: nat, k: nat, a: Acceptance) {
    && k in t.codes && a.composition in t.compositions
    && u.codes == t.codes[k := t.codes[k].(client := Some(c))]
    && TakenAs(w, t, u.(codes := t.codes), c, t.codes[k], t.compositions[a.composition].organization, a)
  }

  lemma FrameComposed(w: Crypto, t: Tables, u: Tables, c: nat, p: Party, reqs: seq<Requirement>)
    requires ComposedInto(w, t, u, c, p, reqs)
    ensures u == t.(clients := u.clients, mappings := u.mappings)
  {
    hide ComposedAs;
  }

  lemma TakenAgain(w: Crypto, t: Tables, t1: Tables, c: nat, row: DeviceCode, node: Option<nat>, organization: nat,
                   a: Acceptance)
    requires BeforeNode(w, t, t1, row.manifest, organization) && NodeAs(w, t1, row.manifest, organization, node)
    requires FirstFitting(t, c, Wanted(w, row, organization, a), node) && c in t1.clients
    requires Rendering.AutoCompose(w, t1, c, row.manifest.requirements, a.user, a.declined).Ok?
    ensures TakenAs(w, t, Rendering.AutoCompose(w, t1, c, row.manifest.requirements, a.user, a.declined).value, c, row,
                    organization, a)
  {
    hide ComposedInto, Rendering.AutoCompose, RegisteredAs, NoneFits;
    var u := Rendering.AutoCompose(w, t1, c, row.manifest.requirements, a.user, a.declined).value;
    AutoComposesAs(w, t1, c, row.manifest.requirements, a.user, a.declined);
    assert t1.clients[c].composition == Some(a.composition);
    FrameComposed(w, t1, u, c, Party(a.user, Some(a.composition), a.declined), row.manifest.requirements);
    assert t1 == t.(nextId := u.nextId, devices := u.devices);
  }

  lemma TakenNew(w: Crypto, t: Tables, u: Tables, c: nat, row: DeviceCode, organization: nat, a: Acceptance)
    requires row.kind == Development && NoneFits(w, t, Wanted(w, row, organization, a))
    requires RegisteredAs(w, t, u, c, OrderOf(row, organization, a))
    ensures TakenAs(w, t, u, c, row, organization, a)
  {
    hide ComposedInto, DevicesKept, RegisteredAs, NoneFits, FirstFitting, NodeAs;
  }

  lemma ReusedOrCreated(w: Crypto, t: Tables, row: DeviceCode, organization: nat, a: Acceptance)
    requires Sound(t) && GetOrCreateNode(w, t, row.manifest, organization).Ok?
    requires var (t1, node) := GetOrCreateNode(w, t, row.manifest, organization).value;
             ReuseOrCreate(w, t1, row, node, organization, a).Ok?
    ensures var (t1, node) := GetOrCreateNode(w, t, row.manifest, organization).value;
            var (u, c) := ReuseOrCreate(w, t1, row, node, organization, a).value;
            TakenAs(w, t, u, c, row, organization, a)
  {
    hide Sound, SoundRegistry, GetOrCreateNode, Reusable, CreateClient, NodeAs, FirstFitting, NoneFits, RegisteredAs,
      DevicesKept, TakenAs, Extends, StatusesAgree, Rendering.AutoCompose;
    var m, ask := row.manifest, Wanted(w, row, organization, a);
    var (t1, node) := GetOrCreateNode(w, t, m, organization).value;
    RegistrySound(t);
    LookedUp(w, t, ask);
    if First(ReusableFor(t1, ask, node)).Some? {
      TakenAgain(w, t, t1, First(ReusableFor(t1, ask, node)).value, row, node, organization, a);
    } else {
      NodeKeeps(w, t, m, organization);
      RegistrySound(t1);
      RegistersFrom(w, t, t1, OrderOf(row, organization, a));
      var (u, c) := CreateClient(w, t1, OrderOf(row, organization, a)).value;
      TakenNew(w, t, u, c, row, organization, a);
    }
  }

  /** Accepting a code, said of the rows. */
  lemma AcceptsAs(w: Crypto, t: Tables, k: nat, a: Acceptance)
    requires Sound(t) && AcceptDeviceCode(w, t, k, a).Ok?
    ensures var (u, c) := AcceptDeviceCode(w, t, k, a).value; AcceptedAs(w, t, u, c, k, a)
  {
    hide Sound, GetOrCreateNode, ReuseOrCreate, TakenAs;
    var row, organization := t.codes[k], t.compositions[a.composition].organization;
    var (t1, node) := GetOrCreateNode(w, t, row.manifest, organization).value;
    var (t2, c) := ReuseOrCreate(w, t1, row, node, organization, a).value;
    ReusedOrCreated(w, t, row, organization, a);
    assert AcceptDeviceCode(w, t, k, a).value.0.(codes := t.codes) == t2;
  }

  // ---- Polling ----------------------------------------------------------------------------------------------------

  /** What a poll answers and leaves: an expired or denied code is gone; else the attached client's own token is
      handed out. */
  ghost predicate PolledAs(t: Tables, u: Tables, poll: Poll, k: nat, now: int) {
    && k in t.codes
    && var row := t.codes[k];
    if now > row.expiresAt then poll == PollExpired && u == t.(codes := t.codes - {k})
    else if row.denied then poll == PollDenied && u == t.(codes := t.codes - {k})
    else match row.client
      case Some(c) => c in t.clients && poll == PollGranted(t.clients[c].token) && u == t
      case None => poll == PollPending && u == t
  }

  lemma RowPolled(t: Tables, k: nat, now: int)
    requires Sound(t) && k in t.codes
    ensures PolledAs(t, PollRow(t, k, now).0, PollRow(t, k, now).1, k, now)
  {
    hide SoundRegistry, UniqueCodes, UniqueTokens, OneTokenPerClient, TokensHold, Drawn, UniqueMemberships,
      UniqueScopes;
  }

  lemma OneRow(t: Tables, code: string)
    requires Sound(t)
    ensures match Get(CodeRows(t, code))
            case Missing => forall k :: !HasCode(t, k, code)
            case Found(k) => HasCode(t, k, code) && forall j :: HasCode(t, j, code) ==> j == k
            case Many => false
  {
    hide SoundRegistry, UniqueTokens, CodesHold, Drawn, UniqueMemberships, UniqueScopes, OneTokenPerClient, TokensHold,
      First;
    var rows := CodeRows(t, code);
    forall k ensures HasCode(t, k, code) <==> k in rows {
    }
    if Get(rows).Found? {
      assert Get(rows).id in rows;
    }
  }

  /** Every answer of a poll, from any sound tables. */
  lemma PollAnswers(w: Crypto, t: Tables, code: string, now: int)
    requires Sound(t)
    ensures var (u, reply) := Step(w, t, At(now, PollCode(code)));
            && reply.Polled?
            && ((forall k :: !HasCode(t, k, code)) <==> reply.poll == PollError)
            && (reply.poll == PollError ==> u == t)
            && (forall k: nat :: HasCode(t, k, code) ==> PolledAs(t, u, reply.poll, k, now))
  {
    hide Sound, PolledAs, PollRow, CodeRows, CreateClient, Redeem, IssueToken, StartDeviceCode, AcceptDeviceCode, Deny;
    OneRow(t, code);
    if Get(CodeRows(t, code)).Found? {
      var k := Get(CodeRows(t, code)).id;
      assert CodeRows(t, code) == {k};
      RowPolled(t, k, now);
      NotError(t, k, now);
    }
  }

  lemma NotError(t: Tables, k: nat, now: int)
    requires k in t.codes
    ensures PollRow(t, k, now).1 != PollError
  {
  }

  /** In any run each granted poll hands out the token of the client attached to its code at that moment. */
  lemma EveryGrantIsTheClients(w: Crypto, t: Tables, es: seq<Timed>, i: nat, code: string, token: string)
    requires Sound(t) && i < |es| && es[i].event == PollCode(code)
    ensures var now := Run(w, t, es[..i]);
            Step(w, now, es[i]).1 == Polled(PollGranted(token)) <==>
              exists k: nat :: && HasCode(now, k, code) && es[i].now <= now.codes[k].expiresAt && !now.codes[k].denied
                               && now.codes[k].client.Some? && now.codes[k].client.value in now.clients
                               && now.clients[now.codes[k].client.value].token == token
  {
    hide Sound, Step, Run, Extends, StatusesAgree;
    var now := Run(w, t, es[..i]);
    Traces.RunKeeps(w, t, es[..i], false);
    assert es[i] == At(es[i].now, PollCode(code));
    PollAnswers(w, now, code, es[i].now);
  }

  // ---- From acceptance to the poll --------------------------------------------------------------------------------

  /** No event accepts row `k` or denies it. */
  predicate LeavesRow(e: Event, k: nat) {
    !(e.Accept? && e.row == k) && !(e.DenyCode? && e.row == k)
  }

  /** The row as it is, or gone by a poll after its expiry or denial. */
  ghost predicate RowStays(t: Tables, u: Tables, e: Timed, k: nat) {
    && k in t.codes
    && if k in u.codes then u.codes[k] == t.codes[k]
       else e.event == PollCode(t.codes[k].code) && (e.now > t.codes[k].expiresAt || t.codes[k].denied)
  }

  lemma StepLeavesRow(w: Crypto, t: Tables, e: Timed, k: nat)
    requires Sound(t) && k in t.codes && LeavesRow(e.event, k)
    ensures RowStays(t, Step(w, t, e).0, e, k)
  {
    hide Sound, RowStays, Step;
    match e.event
    case PollCode(code) => PollStepLeaves(w, t, e, code, k);
    case Start(_, _, _) =>
      StartLeavesRow(t, e, k);
      StartStep(w, t, e);
      KeptRow(t, Step(w, t, e).0, e, k);
    case Accept(row, a) =>
      AcceptLeavesRow(w, t, row, a, k);
      AcceptStep(w, t, e);
      KeptRow(t, Step(w, t, e).0, e, k);
    case DenyCode(_) =>
      DenyLeavesRow(w, t, e, k);
      KeptRow(t, Step(w, t, e).0, e, k);
    case _ =>
      OthersLeaveCodes(w, t, e);
      KeptRow(t, Step(w, t, e).0, e, k);
  }

  lemma PollStepLeaves(w: Crypto, t: Tables, e: Timed, code: string, k: nat)
    requires k in t.codes && e.event == PollCode(code)
    ensures RowStays(t, Step(w, t, e).0, e, k)
  {
    hide RowStays, CreateClient, Redeem, IssueToken, StartDeviceCode, AcceptDeviceCode, Deny, Challenge;
    PollLeavesRow(t, code, e.now, k);
    assert e == At(e.now, PollCode(code));
  }

  lemma StartStep(w: Crypto, t: Tables, e: Timed)
    requires e.event.Start?
    ensures Step(w, t, e).0
            == Outcome(t, StartDeviceCode(t, e.event.staging, e.event.code, e.event.download, e.now)).0
  {
    hide CreateClient, Redeem, IssueToken, StartDeviceCode, AcceptDeviceCode, Deny, Challenge;
  }

  lemma AcceptStep(w: Crypto, t: Tables, e: Timed)
    requires e.event.Accept?
    ensures Step(w, t, e).0 == Outcome(t, AcceptDeviceCode(w, t, e.event.row, e.event.acceptance)).0
  {
    hide CreateClient, Redeem, IssueToken, StartDeviceCode, AcceptDeviceCode, Deny, Challenge;
  }

  lemma DenyLeavesRow(w: Crypto, t: Tables, e: Timed, k: nat)
    requires e.event.DenyCode? && k in t.codes && e.event.row != k
    ensures var u := Step(w, t, e).0; k in u.codes && u.codes[k] == t.codes[k]
  {
    hide CreateClient, Redeem, IssueToken, StartDeviceCode, AcceptDeviceCode, Challenge;
    DeniesAs(t, e.event.row);
  }

  lemma OthersLeaveCodes(w: Crypto, t: Tables, e: Timed)
    requires e.event.Register? || e.event.Issue? || e.event.Redeeming?
    ensures Step(w, t, e).0.codes == t.codes
  {
    hide CreateClient, Redeem, IssueToken, StartDeviceCode, AcceptDeviceCode, Deny, Challenge;
  }

  lemma KeptRow(t: Tables, u: Tables, e: Timed, k: nat)
    requires k in t.codes && k in u.codes && u.codes[k] == t.codes[k]
    ensures RowStays(t, u, e, k)
  {
  }

  lemma PollLeavesRow(t: Tables, code: string, now: int, k: nat)
    requires k in t.codes
    ensures RowStays(t, Challenge(t, code, now).0, At(now, PollCode(code)), k)
  {
    hide CodeRows;
    if Get(CodeRows(t, code)).Found? { Traces.CodeOf(t, code, Get(CodeRows(t, code)).id); }
  }

  lemma StartLeavesRow(t: Tables, e: Timed, k: nat)
    requires Sound(t) && k in t.codes && e.event.Start?
    ensures var u := Outcome(t, StartDeviceCode(t, e.event.staging, e.event.code, e.event.download, e.now)).0;
            k in u.codes && u.codes[k] == t.codes[k]
  {
    hide Sound, StartDeviceCode, StagedAs;
    StartsAs(t, e.event.staging, e.event.code, e.event.download, e.now);
    match StartDeviceCode(t, e.event.staging, e.event.code, e.event.download, e.now)
    case Ok((u, added)) => StagedElsewhere(t, u, added, e.event.staging, e.event.code, e.now);
    case Err(_) =>
  }

  lemma StagedElsewhere(t: Tables, u: Tables, k: nat, g: Staging, code: string, now: int)
    requires StagedAs(t, u, k, g, code, now)
    ensures forall j :: j in t.codes ==> j in u.codes && u.codes[j] == t.codes[j]
  {
  }

  lemma AcceptLeavesRow(w: Crypto, t: Tables, row: nat, a: Acceptance, k: nat)
    requires Sound(t) && k in t.codes && row != k
    ensures var u := Outcome(t, AcceptDeviceCode(w, t, row, a)).0; k in u.codes && u.codes[k] == t.codes[k]
  {
    hide Sound, AcceptDeviceCode, TakenAs;
    if AcceptDeviceCode(w, t, row, a).Ok? { AcceptsAs(w, t, row, a); }
  }

  lemma {:induction false} RowOverRun(w: Crypto, t: Tables, es: seq<Timed>, k: nat)
    requires Sound(t) && k in t.codes && !t.codes[k].denied
    requires forall e :: e in es ==> LeavesRow(e.event, k) && e.now <= t.codes[k].expiresAt
    ensures var u := Run(w, t, es); Sound(u) && k in u.codes && u.codes[k] == t.codes[k]
    decreases |es|
  {
    hide Sound, Step, LeavesRow, Extends, StatusesAgree;
    if es != [] {
      assert es[0] in es;
      StepKeeps(w, t, es[0], false);
      StepLeavesRow(w, t, es[0], k);
      RowOverRun(w, Step(w, t, es[0]).0, es[1..], k);
    }
  }

  /** Once a code is accepted, a poll in time hands out the token the accepted client has then, whatever else
      happens in between but accepting or denying that code again. */
  lemma AcceptedIsPolled(w: Crypto, t: Tables, k: nat, a: Acceptance, accepted: int, c: nat, es: seq<Timed>, now: int)
    requires Sound(t) && Step(w, t, At(accepted, Accept(k, a))).1 == Created(c)
    requires k in t.codes && !t.codes[k].denied && now <= t.codes[k].expiresAt
    requires forall e :: e in es ==> LeavesRow(e.event, k) && e.now <= t.codes[k].expiresAt
    ensures var u := Run(w, Step(w, t, At(accepted, Accept(k, a))).0, es);
            && c in u.clients
            && Step(w, u, At(now, PollCode(t.codes[k].code))) == (u, Polled(PollGranted(u.clients[c].token)))
  {
    hide Sound, AcceptDeviceCode, CreateClient, Redeem, IssueToken, StartDeviceCode, Deny, Challenge, TakenAs,
      LeavesRow, Extends, StatusesAgree;
    var e := At(accepted, Accept(k, a));
    var t1 := Step(w, t, e).0;
    StepKeeps(w, t, e, false);
    AcceptsAs(w, t, k, a);
    assert t1.codes[k] == t.codes[k].(client := Some(c));
    RowOverRun(w, t1, es, k);
    var u := Run(w, t1, es);
    hide Step, Run;
    PollAnswers(w, u, t.codes[k].code, now);
    assert HasCode(u, k, t.codes[k].code);
  }

  /** A client that was taken again keeps its token; one that was registered has the token that was drawn. */
  lemma AcceptedToken(w: Crypto, t: Tables, k: nat, a: Acceptance)
    requires Sound(t) && AcceptDeviceCode(w, t, k, a).Ok?
    ensures var (u, c) := AcceptDeviceCode(w, t, k, a).value;
            var organization := t.compositions[a.composition].organization;
            && c in u.clients
            && (|| (c in t.clients && u.clients[c].token == t.clients[c].token)
                || (NoneFits(w, t, Wanted(w, t.codes[k], organization, a)) && u.clients[c].token == a.newToken))
  {
    hide Sound, AcceptDeviceCode, NoneFits, NodeAs, Fitting, DevicesKept, ComposedAs, LinkedAs, SuppliedAs, OthersStay,
      IsReleased;
    AcceptsAs(w, t, k, a);
  }
}
