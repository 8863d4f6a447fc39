/** Every step of the client lifecycle, in every reachable state: what it answers and what it leaves, said of the rows
    themselves. */
module Answers {
  import opened Prelude
  import opened Rows
  import opened Clients
  import opened DeviceCodes
  import opened Invariants
  import opened Lifecycle
  import opened Requirements
  import opened Registrations
  import opened Refusals
  import Accepting
  import Cascade
  import Compositions
  import Histories
  import Partners
  import Redeeming
  import Rendering

  // ---- Issuing ----------------------------------------------------------------------------------------------------

  /** The token string has one row: a row that was there gets the new user and composition, a new one every column. */
  ghost predicate IssuedAs(t: Tables, u: Tables, reply: Reply, e: Event)
    requires e.Issue?
  {
    if e.composition !in t.compositions then reply.Refused? && u == t
    else
      && reply.Created? && reply.id in u.tokens
      && var row := u.tokens[reply.id];
      && row.token == e.token && row.user == e.user && row.composition == e.composition
      && u == t.(nextId := u.nextId, tokens := t.tokens[reply.id := row])
      && if exists r: nat :: Redeeming.HasToken(t, r, e.token)
         then reply.id in t.tokens && row == t.tokens[reply.id].(user := e.user, composition := e.composition)
         else && reply.id !in t.tokens && row.client.None? && row.manifestHash.None? && row.expiresAt == e.expiresAt
              && row.allowReredeem == e.allowReredeem
  }

  lemma IssueAnswers(w: Crypto, t: Tables, e: Timed)
    requires Sound(t) && e.event.Issue?
    ensures IssuedAs(t, Step(w, t, e).0, Step(w, t, e).1, e.event)
  {
    hide Sound, TokenRows, CreateClient, Redeem, StartDeviceCode, AcceptDeviceCode, Deny, Challenge;
    Redeeming.OneRow(t, e.event.token);
    TokensDrawn(t);
    match Get(TokenRows(t, e.event.token))
    case Found(r) => IssuedAgain(t, e.event, r);
    case Missing =>
    case Many =>
  }

  lemma IssuedAgain(t: Tables, e: Event, r: nat)
    requires e.Issue? && Get(TokenRows(t, e.token)) == Found(r) && Redeeming.HasToken(t, r, e.token)
    ensures IssuedAs(t, Outcome(t, IssueToken(t, e)).0, Outcome(t, IssueToken(t, e)).1, e)
  {
    hide TokenRows, First;
  }

  lemma TokensDrawn(t: Tables)
    requires Sound(t)
    ensures t.nextId !in t.tokens
  {
    hide SoundRegistry, UniqueTokens, OneTokenPerClient, UniqueCodes, CodesHold, TokensHold, UniqueMemberships,
      UniqueScopes;
  }

  // ---- Every step -------------------------------------------------------------------------------------------------

  ghost predicate RegisterAs(w: Crypto, t: Tables, u: Tables, reply: Reply, o: Order) {
    match reply
    case Created(c) => Registrable(w, t, o) && RegisteredAs(w, t, u, c, o)
    case Refused(_) => !Registrable(w, t, o) && u == t
    case _ => false
  }

  /** In time, the token's recorded client is handed out again to the same manifest, and a client can be taken
      for it where it has none or where another manifest may replace it. */
  ghost predicate Grants(w: Crypto, t: Tables, q: Request, now: int, r: nat) {
    && r in t.tokens
    && var row, digest := t.tokens[r], w.manifestHash(q.manifest);
    && !Redeeming.IsOver(row, now)
    && (|| (row.client.Some? && (row.manifestHash.None? || row.manifestHash.value == digest))
        || ((row.client.None? || row.allowReredeem) && Takeable(w, t, r, q)))
  }

  ghost predicate RedeemAs(w: Crypto, t: Tables, u: Tables, reply: Reply, q: Request, now: int) {
    && reply.Answered?
    && ((forall r: nat :: !Redeeming.HasToken(t, r, q.token)) <==> reply.answer == UnknownToken)
    && (reply.answer == UnknownToken ==> u == t)
    && forall r: nat :: Redeeming.HasToken(t, r, q.token) ==>
         && Redeeming.AnsweredAs(w, t, u, reply.answer, r, q, now)
         && (reply.answer.Redeemed? <==> Grants(w, t, q, now, r))
  }

  ghost predicate StartAs(t: Tables, u: Tables, reply: Reply, g: Staging, code: string, download: Download, now: int) {
    match reply
    case Created(k) => && (g.manifest.logo.None? || g.manifest.logo.value == "" || download.Fetched?)
                       && (forall j: nat :: !Accepting.HasCode(t, j, code)) && Accepting.StagedAs(t, u, k, g, code, now)
    case Refused(_) => && u == t
                       && ((g.manifest.logo.Some? && g.manifest.logo.value != "" && download.Unreachable?)
                           || exists j: nat :: Accepting.HasCode(t, j, code))
    case _ => false
  }

  ghost predicate AcceptAs(w: Crypto, t: Tables, u: Tables, reply: Reply, k: nat, a: Acceptance) {
    match reply
    case Created(c) => Acceptable(w, t, k, a) && Accepting.AcceptedAs(w, t, u, c, k, a)
    case Refused(_) => !Acceptable(w, t, k, a) && u == t
    case _ => false
  }

  ghost predicate DenyAs(t: Tables, u: Tables, k: nat) {
    && u == t.(codes := u.codes) && u.codes.Keys == t.codes.Keys
    && (forall j :: j in t.codes ==> u.codes[j] == if j == k then t.codes[j].(denied := true) else t.codes[j])
  }

  ghost predicate PollAs(t: Tables, u: Tables, reply: Reply, code: string, now: int) {
    && reply.Polled?
    && ((forall k: nat :: !Accepting.HasCode(t, k, code)) <==> reply.poll == PollError)
    && (reply.poll == PollError ==> u == t)
    && (forall k: nat :: Accepting.HasCode(t, k, code) ==> Accepting.PolledAs(t, u, reply.poll, k, now))
  }

  /** What a step answers and leaves. */
  ghost predicate StepAs(w: Crypto, t: Tables, u: Tables, reply: Reply, e: Timed) {
    match e.event
    case Register(o) => RegisterAs(w, t, u, reply, o)
    case Issue(_, _, _, _, _) => IssuedAs(t, u, reply, e.event)
    case Redeeming(q) => RedeemAs(w, t, u, reply, q, e.now)
    case Start(g, code, download) => StartAs(t, u, reply, g, code, download, e.now)
    case Accept(k, a) => AcceptAs(w, t, u, reply, k, a)
    case DenyCode(k) => DenyAs(t, u, k)
    case PollCode(code) => PollAs(t, u, reply, code, e.now)
  }

  lemma RegisterAnswers(w: Crypto, t: Tables, o: Order)
    requires Sound(t) && RegistryRefers(t)
    ensures RegisterAs(w, t, Outcome(t, CreateClient(w, t, o)).0, Outcome(t, CreateClient(w, t, o)).1, o)
  {
    hide Sound, RegistryRefers, CreateClient, RegisteredAs, Registrable;
    RegistrySound(t);
    RegistersExactly(w, t, o);
    if CreateClient(w, t, o).Ok? { RegistersAs(w, t, o); }
  }

  lemma RedeemAnswers(w: Crypto, t: Tables, q: Request, now: int)
    requires Sound(t) && RegistryRefers(t)
    ensures RedeemAs(w, t, Redeem(w, t, q, now).0, Answered(Redeem(w, t, q, now).1), q, now)
  {
    hide Sound, RegistryRefers, Redeem, Redeeming.AnsweredAs, Takeable;
    Redeeming.RedeemAnswers(w, t, q, now);
    forall r: nat | Redeeming.HasToken(t, r, q.token)
      ensures Redeem(w, t, q, now).1.Redeemed? <==> Grants(w, t, q, now, r)
    {
      RedeemsExactly(w, t, q, now, r);
    }
  }

  lemma StartAnswers(t: Tables, g: Staging, code: string, download: Download, now: int)
    requires Sound(t)
    ensures var (u, reply) := Outcome(t, StartDeviceCode(t, g, code, download, now));
            StartAs(t, u, reply, g, code, download, now)
  {
    hide Sound, StartDeviceCode, Accepting.StagedAs, Accepting.HasCode;
    Accepting.StartsAs(t, g, code, download, now);
  }

  lemma AcceptAnswers(w: Crypto, t: Tables, k: nat, a: Acceptance)
    requires Sound(t) && RegistryRefers(t)
    ensures var (u, reply) := Outcome(t, AcceptDeviceCode(w, t, k, a)); AcceptAs(w, t, u, reply, k, a)
  {
    hide Sound, RegistryRefers, AcceptDeviceCode, Acceptable, Accepting.AcceptedAs;
    AcceptsExactly(w, t, k, a);
    if AcceptDeviceCode(w, t, k, a).Ok? { Accepting.AcceptsAs(w, t, k, a); }
  }

  lemma StepAnswers(w: Crypto, t: Tables, e: Timed)
    requires Sound(t) && RegistryRefers(t)
    ensures StepAs(w, t, Step(w, t, e).0, Step(w, t, e).1, e)
  {
    hide Sound, RegistryRefers, CreateClient, IssueToken, Redeem, StartDeviceCode, AcceptDeviceCode, Deny, Challenge,
      RegisterAs, IssuedAs, RedeemAs, StartAs, AcceptAs;
    match e.event
    case Register(o) => RegisterAnswers(w, t, o);
    case Issue(_, _, _, _, _) => IssueAnswers(w, t, e);
    case Redeeming(q) => RedeemAnswers(w, t, q, e.now);
    case Start(g, code, download) => StartAnswers(t, g, code, download, e.now);
    case Accept(k, a) => AcceptAnswers(w, t, k, a);
    case DenyCode(k) => Accepting.DeniesAs(t, k);
    case PollCode(code) => Accepting.PollAnswers(w, t, code, e.now);
  }

  // ---- Every reachable state --------------------------------------------------------------------------------------

  lemma RegisteredRefers(w: Crypto, t: Tables, u: Tables, c: nat, o: Order)
    requires RegistryRefers(t) && RegisteredAs(w, t, u, c, o)
    ensures RegistryRefers(u)
  {
    hide SuppliedAs, LinkedAs, IsLogo, IsMembership;
  }

  lemma SameRegistryRefers(t: Tables, u: Tables)
    requires RegistryRefers(t) && u.apps == t.apps && u.releases == t.releases
    requires forall d :: d in t.devices ==> d in u.devices
    requires forall c :: c in u.clients ==> c in t.clients && u.clients[c].release == t.clients[c].release
                                            && u.clients[c].node == t.clients[c].node
    ensures RegistryRefers(u)
  {
  }

  lemma TakenRefers(w: Crypto, t: Tables, u: Tables, c: nat, row: RedeemToken, q: Request)
    requires RegistryRefers(t) && Redeeming.TakenAs(w, t, u, c, row, q)
    ensures RegistryRefers(u)
  {
    hide RegistryRefers, RegisteredAs, NoneFits, FirstFitting, NodeAs;
    var o := Redeeming.OrderOf(row, t.compositions[row.composition].organization, q);
    if RegisteredAs(w, t, u, c, o) {
      RegisteredRefers(w, t, u, c, o);
    } else {
      SameRegistryRefers(t, u);
    }
  }

  lemma VouchersRefer(t: Tables, u: Tables)
    requires RegistryRefers(t) && u == t.(nextId := u.nextId, tokens := u.tokens, codes := u.codes)
    ensures RegistryRefers(u)
  {
  }

  /** A redeem that takes no client writes no table but the tokens. */
  lemma OverAlone(w: Crypto, t: Tables, u: Tables, answer: Answer, q: Request, now: int, r: nat)
    requires Redeeming.AnsweredAs(w, t, u, answer, r, q, now) && Redeeming.IsOver(t.tokens[r], now)
    ensures u == t.(nextId := u.nextId, tokens := u.tokens, codes := u.codes)
  {
    hide Redeeming.TakenAs, Redeeming.IsOver;
  }

  lemma RefusedAlone(w: Crypto, t: Tables, u: Tables, answer: Answer, q: Request, now: int, r: nat)
    requires Redeeming.AnsweredAs(w, t, u, answer, r, q, now)
    requires !Redeeming.IsOver(t.tokens[r], now) && !answer.Redeemed?
    ensures u == t
  {
    hide Redeeming.TakenAs, Redeeming.IsOver;
  }

  lemma RecordedAlone(w: Crypto, t: Tables, u: Tables, answer: Answer, q: Request, now: int, r: nat)
    requires Redeeming.AnsweredAs(w, t, u, answer, r, q, now)
    requires !Redeeming.IsOver(t.tokens[r], now) && t.tokens[r].client.Some?
    requires t.tokens[r].manifestHash.None? || t.tokens[r].manifestHash.value == w.manifestHash(q.manifest)
    ensures u == t.(nextId := u.nextId, tokens := u.tokens, codes := u.codes)
  {
    hide Redeeming.TakenAs, Redeeming.IsOver;
  }

  lemma OtherwiseTaken(w: Crypto, t: Tables, u: Tables, answer: Answer, q: Request, now: int, r: nat)
    requires Redeeming.AnsweredAs(w, t, u, answer, r, q, now)
    requires !Redeeming.IsOver(t.tokens[r], now) && answer.Redeemed?
    requires t.tokens[r].client.Some? ==> t.tokens[r].manifestHash.Some?
                                          && t.tokens[r].manifestHash.value != w.manifestHash(q.manifest)
    ensures Redeeming.TakenAs(w, t, u.(tokens := t.tokens), answer.client, t.tokens[r], q)
  {
    hide Redeeming.TakenAs, Redeeming.IsOver;
  }

  lemma RedeemRefers(w: Crypto, t: Tables, u: Tables, answer: Answer, q: Request, now: int, r: nat)
    requires RegistryRefers(t) && Redeeming.AnsweredAs(w, t, u, answer, r, q, now)
    ensures RegistryRefers(u)
  {
    HasRow(w, t, u, answer, q, now, r);
    hide RegistryRefers, Redeeming.TakenAs, Redeeming.AnsweredAs, Redeeming.IsOver;
    var row := t.tokens[r];
    if Redeeming.IsOver(row, now) {
      OverAlone(w, t, u, answer, q, now, r);
      VouchersRefer(t, u);
    } else if !answer.Redeemed? {
      RefusedAlone(w, t, u, answer, q, now, r);
    } else if row.client.Some? && (row.manifestHash.None? || row.manifestHash.value == w.manifestHash(q.manifest)) {
      RecordedAlone(w, t, u, answer, q, now, r);
      VouchersRefer(t, u);
    } else {
      OtherwiseTaken(w, t, u, answer, q, now, r);
      GrantRefers(w, t, u, answer.client, row, q);
    }
  }

  lemma HasRow(w: Crypto, t: Tables, u: Tables, answer: Answer, q: Request, now: int, r: nat)
    requires Redeeming.AnsweredAs(w, t, u, answer, r, q, now)
    ensures r in t.tokens
  {
    hide Redeeming.TakenAs, Redeeming.IsOver;
  }

  lemma GrantRefers(w: Crypto, t: Tables, u: Tables, c: nat, row: RedeemToken, q: Request)
    requires RegistryRefers(t) && Redeeming.TakenAs(w, t, u.(tokens := t.tokens), c, row, q)
    ensures RegistryRefers(u)
  {
    hide RegistryRefers, Redeeming.TakenAs;
    TakenRefers(w, t, u.(tokens := t.tokens), c, row, q);
    VouchersRefer(u.(tokens := t.tokens), u);
  }

  lemma AcceptRefers(w: Crypto, t: Tables, u: Tables, c: nat, k: nat, a: Acceptance)
    requires RegistryRefers(t) && Accepting.AcceptedAs(w, t, u, c, k, a)
    ensures RegistryRefers(u)
  {
    hide RegistryRefers, RegisteredAs, NoneFits, FirstFitting, NodeAs, ComposedAs, Rendering.MappingsOf;
    var v, row, organization := u.(codes := t.codes), t.codes[k], t.compositions[a.composition].organization;
    if RegisteredAs(w, t, v, c, Accepting.OrderOf(row, organization, a)) {
      RegisteredRefers(w, t, v, c, Accepting.OrderOf(row, organization, a));
    } else {
      SameRegistryRefers(t, v);
    }
    VouchersRefer(v, u);
  }

  lemma StepRefers(w: Crypto, t: Tables, e: Timed)
    requires Sound(t) && RegistryRefers(t)
    ensures RegistryRefers(Step(w, t, e).0)
  {
    hide Sound, RegistryRefers, Step, RegisterAs, RedeemAs, AcceptAs, IssuedAs, StartAs, DenyAs, PollAs;
    StepAnswers(w, t, e);
    var (u, reply) := Step(w, t, e);
    match e.event
    case Register(o) => RegisterStepRefers(w, t, u, reply, o);
    case Issue(_, _, _, _, _) => IssueStepRefers(t, u, reply, e.event);
    case Redeeming(q) => RedeemStepRefers(w, t, u, reply, q, e.now);
    case Start(g, code, download) => StartStepRefers(t, u, reply, g, code, download, e.now);
    case Accept(k, a) => AcceptStepRefers(w, t, u, reply, k, a);
    case DenyCode(k) => DenyStepRefers(t, u, k);
    case PollCode(code) => PollStepRefers(t, u, reply, code, e.now);
  }

  lemma RegisterStepRefers(w: Crypto, t: Tables, u: Tables, reply: Reply, o: Order)
    requires RegistryRefers(t) && RegisterAs(w, t, u, reply, o)
    ensures RegistryRefers(u)
  {
    hide RegistryRefers, RegisteredAs, Registrable;
    if reply.Created? { RegisteredRefers(w, t, u, reply.id, o); }
  }

  lemma IssueStepRefers(t: Tables, u: Tables, reply: Reply, e: Event)
    requires RegistryRefers(t) && e.Issue? && IssuedAs(t, u, reply, e)
    ensures RegistryRefers(u)
  {
    hide RegistryRefers, Redeeming.HasToken;
    VouchersRefer(t, u);
  }

  lemma StartStepRefers(t: Tables, u: Tables, reply: Reply, g: Staging, code: string, download: Download, now: int)
    requires RegistryRefers(t) && StartAs(t, u, reply, g, code, download, now)
    ensures RegistryRefers(u)
  {
    hide RegistryRefers, Accepting.HasCode;
    VouchersRefer(t, u);
  }

  lemma AcceptStepRefers(w: Crypto, t: Tables, u: Tables, reply: Reply, k: nat, a: Acceptance)
    requires RegistryRefers(t) && AcceptAs(w, t, u, reply, k, a)
    ensures RegistryRefers(u)
  {
    hide RegistryRefers, Acceptable, Accepting.AcceptedAs;
    if reply.Created? { AcceptRefers(w, t, u, reply.id, k, a); }
  }

  lemma DenyStepRefers(t: Tables, u: Tables, k: nat)
    requires RegistryRefers(t) && DenyAs(t, u, k)
    ensures RegistryRefers(u)
  {
    hide RegistryRefers;
    VouchersRefer(t, u);
  }

  lemma RedeemStepRefers(w: Crypto, t: Tables, u: Tables, reply: Reply, q: Request, now: int)
    requires RegistryRefers(t) && RedeemAs(w, t, u, reply, q, now)
    ensures RegistryRefers(u)
  {
    hide RegistryRefers, Redeeming.AnsweredAs, Grants;
    if r: nat :| Redeeming.HasToken(t, r, q.token) { RedeemRefers(w, t, u, reply.answer, q, now, r); }
  }

  lemma PollStepRefers(t: Tables, u: Tables, reply: Reply, code: string, now: int)
    requires RegistryRefers(t) && PollAs(t, u, reply, code, now)
    ensures RegistryRefers(u)
  {
    hide RegistryRefers, Accepting.PolledAs, Accepting.HasCode;
    if k: nat :| Accepting.HasCode(t, k, code) { PolledRefers(t, u, reply.poll, k, now); }
  }

  lemma PolledRefers(t: Tables, u: Tables, poll: Poll, k: nat, now: int)
    requires RegistryRefers(t) && Accepting.PolledAs(t, u, poll, k, now)
    ensures RegistryRefers(u)
  {
    hide RegistryRefers;
    VouchersRefer(t, u);
  }

  lemma DeleteRefers(t: Tables, c: nat)
    requires RegistryRefers(t)
    ensures RegistryRefers(Cascade.Delete(t, c))
  {
    hide RegistryRefers, Cascade.Delete, Cascade.Gone, Cascade.GrantsCleared, Cascade.Rest;
    Cascade.DeletesExactly(t, c);
    SameRegistryRefers(t, Cascade.Delete(t, c));
  }

  lemma AppliedRefers(t: Tables, u: Tables)
    requires RegistryRefers(t) && Compositions.OnlyCompositions(t, u)
    ensures RegistryRefers(u)
  {
    hide RegistryRefers;
    SameRegistryRefers(t, u);
  }

  lemma NextRefers(w: Crypto, t: Tables, h: Histories.Happening)
    requires Histories.Whole(t) && RegistryRefers(t)
    ensures RegistryRefers(Histories.Next(w, t, h))
  {
    hide RegistryRefers, Step, Compositions.Apply, Cascade.Delete, Sound, Cascade.NoDangling,
      Compositions.OnlyCompositions;
    match h
    case Lived(e) => StepRefers(w, t, e);
    case Applied(m, organization) =>
      if organization in t.organizations && Compositions.Apply(w, t, m, organization).Ok? {
        AppliedRefers(t, Compositions.Apply(w, t, m, organization).value.0);
      }
    case Offered(partner, organization, approves) =>
      if organization in t.organizations && partner.composition.Some? {
        OfferedRefers(w, t, partner, organization, approves);
      }
    case Removed(c, user) => DeleteRefers(t, c);
  }

  lemma OfferedRefers(w: Crypto, t: Tables, partner: Partners.Partner, organization: nat, approves: bool)
    requires RegistryRefers(t) && organization in t.organizations && partner.composition.Some?
    ensures RegistryRefers(Partners.FromPartner(w, t, partner, organization, approves).0)
  {
    hide RegistryRefers, Compositions.Apply, Cascade.Delete, Compositions.OnlyCompositions;
    var applied := Compositions.Apply(w, t, partner.composition.value, organization);
    if applied.Ok? {
      AppliedRefers(t, applied.value.0);
      DeleteRefers(applied.value.0, applied.value.1);
    }
  }

  /** A deletion is the organization owner's to make, and changes nothing otherwise. */
  lemma RemovalAnswers(w: Crypto, t: Tables, c: nat, user: nat)
    ensures var u := Histories.Next(w, t, Histories.Removed(c, user));
            if exists o :: o in t.organizations && t.organizations[o].owner == user
                           && c in t.compositions && t.compositions[c].organization == o
            then Cascade.DeletedAs(t, u, c)
            else u == t
  {
    hide Cascade.Delete, Cascade.DeletedAs;
    Cascade.DeletesExactly(t, c);
  }

  /** Whatever has happened before, every step answers so and leaves the rows so. */
  lemma {:induction false} HistoryAnswers(w: Crypto, t: Tables, hs: seq<Histories.Happening>, e: Timed)
    requires Histories.Whole(t) && RegistryRefers(t)
    ensures var u := Histories.History(w, t, hs);
            Histories.Whole(u) && RegistryRefers(u) && StepAs(w, u, Step(w, u, e).0, Step(w, u, e).1, e)
    decreases |hs|
  {
    hide RegistryRefers, Step, StepAs, Histories.Whole, Histories.Next;
    if hs == [] {
      WholeIsSound(t);
      StepAnswers(w, t, e);
    } else {
      NextRefers(w, t, hs[0]);
      Histories.HappeningGoes(w, t, hs[0], false);
      HistoryAnswers(w, Histories.Next(w, t, hs[0]), hs[1..], e);
    }
  }

  lemma WholeIsSound(t: Tables)
    requires Histories.Whole(t)
    ensures Sound(t)
  {
    hide Sound;
  }

  /** Histories may start from nothing. */
  lemma NoTablesRegistryRefers()
    ensures RegistryRefers(NoTables())
  {
  }
}
