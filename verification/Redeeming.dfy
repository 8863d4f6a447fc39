/** What redeeming a token answers, for every token, manifest and time, said of the rows themselves. */
module Redeeming {
  import opened Prelude
  import opened Rows
  import opened Clients
  import opened Invariants
  import opened Registrations

  predicate HasToken(t: Tables, r: nat, token: string) {
    r in t.tokens && t.tokens[r].token == token
  }

  predicate IsOver(row: RedeemToken, now: int) {
    row.expiresAt.Some? && row.expiresAt.value < now
  }

  /** What a redeem registers: everything of the token's user and composition, nothing declined. */
  function OrderOf(row: RedeemToken, organization: nat, q: Request): Order {
    Order(q.manifest, Config(Development, q.role, q.newToken, row.user, row.user, organization),
          row.user, organization, Some(row.composition), {}, q.draw)
  }

  /** The first client that fits is taken as it is; where none does, one is registered. */
  ghost predicate TakenAs(w: Crypto, t: Tables, u: Tables, c: nat, row: RedeemToken, q: Request) {
    && row.composition in t.compositions
    && var organization := t.compositions[row.composition].organization;
    var ask := Ask(q.manifest, Development, row.user, organization, row.composition, "");
    || (&& u == t.(nextId := u.nextId, devices := u.devices) && DevicesKept(w, t, u, q.manifest, organization)
        && exists node :: NodeAs(w, u, q.manifest, organization, node) && FirstFitting(t, c, ask, node))
    || (NoneFits(w, t, ask) && RegisteredAs(w, t, u, c, OrderOf(row, organization, q)))
  }

  /** The answer, and what becomes of the token row and of the tables. */
  ghost predicate AnsweredAs(w: Crypto, t: Tables, u: Tables, answer: Answer, r: nat, q: Request, now: int) {
    && r in t.tokens
    && var row, digest := t.tokens[r], w.manifestHash(q.manifest);
    if IsOver(row, now) then answer == Expired && u == t.(tokens := t.tokens - {r})
    else if row.client.Some? && (row.manifestHash.None? || row.manifestHash.value == digest) then
      && answer == Redeemed(row.client.value)
      && u == t.(tokens := t.tokens[r := row.(manifestHash := Some(digest))])
    else if row.client.Some? && !row.allowReredeem then answer == ManifestChanged && u == t
    else match answer
      case Redeemed(c) =>
        && u.tokens == t.tokens[r := row.(client := Some(c), manifestHash := Some(digest))]
        && TakenAs(w, t, u.(tokens := t.tokens), c, row, q)
      case Failed(_) => u == t
      case _ => false
  }

  lemma TakenFirst(w: Crypto, t: Tables, t1: Tables, c: nat, row: RedeemToken, q: Request, node: Option<nat>)
    requires row.composition in t.compositions
    requires var organization := t.compositions[row.composition].organization;
             && BeforeNode(w, t, t1, q.manifest, organization) && NodeAs(w, t1, q.manifest, organization, node)
             && FirstFitting(t, c, Ask(q.manifest, Development, row.user, organization, row.composition, ""), node)
    ensures TakenAs(w, t, t1, c, row, q)
  {
    hide NodeAs, FirstFitting, DevicesKept, RegisteredAs, NoneFits;
  }

  lemma Taken(w: Crypto, t: Tables, r: nat, q: Request)
    requires Sound(t) && r in t.tokens && ValidateRedeemToken(w, t, r, q).Ok?
    ensures var (u, c) := ValidateRedeemToken(w, t, r, q).value;
            && u.tokens == t.tokens[r := t.tokens[r].(client := Some(c))]
            && TakenAs(w, t, u.(tokens := t.tokens), c, t.tokens[r], q)
  {
    hide Sound, SoundRegistry, GetOrCreateNode, Reusable, CreateClient, NodeAs, FirstFitting, NoneFits, RegisteredAs,
      DevicesKept, TakenAs, Extends, StatusesAgree;
    var row, m := t.tokens[r], q.manifest;
    var organization := t.compositions[row.composition].organization;
    var ask := Ask(m, Development, row.user, organization, row.composition, "");
    var (t1, node) := GetOrCreateNode(w, t, m, organization).value;
    RegistrySound(t);
    LookedUp(w, t, ask);
    var o := OrderOf(row, organization, q);
    var (t2, c) := FindOrCreate(w, t1, ReusableFor(t1, ask, node), o).value;
    assert ValidateRedeemToken(w, t, r, q).value.0.(tokens := t.tokens) == t2;
    if First(ReusableFor(t1, ask, node)).Some? {
      TakenFirst(w, t, t1, c, row, q, node);
    } else {
      NodeKeeps(w, t, m, organization);
      RegistrySound(t1);
      RegistersFrom(w, t, t1, o);
      TakenNew(w, t, t2, c, row, q);
    }
  }

  lemma TakenNew(w: Crypto, t: Tables, u: Tables, c: nat, row: RedeemToken, q: Request)
    requires row.composition in t.compositions
    requires var organization := t.compositions[row.composition].organization;
             && NoneFits(w, t, Ask(q.manifest, Development, row.user, organization, row.composition, ""))
             && RegisteredAs(w, t, u, c, OrderOf(row, organization, q))
    ensures TakenAs(w, t, u, c, row, q)
  {
    hide NodeAs, FirstFitting, DevicesKept, RegisteredAs, NoneFits;
  }

  lemma LockedAnswers(w: Crypto, t: Tables, r: nat, q: Request, now: int)
    requires Sound(t) && r in t.tokens && !IsOver(t.tokens[r], now)
    ensures AnsweredAs(w, t, RedeemLocked(w, t, r, q).0, RedeemLocked(w, t, r, q).1, r, q, now)
  {
    hide Sound, ValidateRedeemToken, TakenAs;
    var row := t.tokens[r];
    if ValidateRedeemToken(w, t, r, q).Ok? { Taken(w, t, r, q); }
    if row.client.Some? && row.manifestHash == Some(w.manifestHash(q.manifest)) {
      assert t.tokens[r := row.(manifestHash := row.manifestHash)] == t.tokens;
    }
  }

  lemma OneRow(t: Tables, token: string)
    requires Sound(t)
    ensures match Get(TokenRows(t, token))
            case Missing => forall r :: !HasToken(t, r, token)
            case Found(r) => HasToken(t, r, token) && TokenRows(t, token) == {r}
            case Many => false
  {
    hide SoundRegistry, UniqueCodes, CodesHold, Drawn, UniqueMemberships, UniqueScopes, OneTokenPerClient, TokensHold,
      First;
    var rows := TokenRows(t, token);
    forall r ensures HasToken(t, r, token) <==> r in rows {
    }
    if Get(rows).Found? {
      assert Get(rows).id in rows;
      assert rows == {Get(rows).id};
    }
  }

  /** Every answer of a redeem, from any sound tables: it is decided by the token's row, the digest and the clock. */
  lemma RedeemAnswers(w: Crypto, t: Tables, q: Request, now: int)
    requires Sound(t)
    ensures var (u, answer) := Redeem(w, t, q, now);
            && ((forall r :: !HasToken(t, r, q.token)) <==> answer == UnknownToken)
            && (answer == UnknownToken ==> u == t)
            && (forall r: nat :: HasToken(t, r, q.token) ==> AnsweredAs(w, t, u, answer, r, q, now))
  {
    hide Sound, AnsweredAs, RedeemLocked, TokenRows;
    OneRow(t, q.token);
    match Get(TokenRows(t, q.token))
    case Missing =>
    case Many =>
    case Found(k) =>
      forall r: nat | HasToken(t, r, q.token) ensures r == k { InRows(t, r, q.token); }
      if IsOver(t.tokens[k], now) {
        DroppedAs(w, t, k, q, now);
      } else {
        LockedAnswers(w, t, k, q, now);
        NeverUnknown(w, t, k, q);
      }
  }

  lemma InRows(t: Tables, r: nat, token: string)
    requires HasToken(t, r, token)
    ensures r in TokenRows(t, token)
  {
  }

  lemma DroppedAs(w: Crypto, t: Tables, r: nat, q: Request, now: int)
    requires r in t.tokens && IsOver(t.tokens[r], now) && TokenRows(t, q.token) == {r}
    ensures AnsweredAs(w, t, DropToken(t, q.token), Expired, r, q, now)
  {
    hide TokenRows;
  }

  lemma NeverUnknown(w: Crypto, t: Tables, r: nat, q: Request)
    requires r in t.tokens
    ensures !RedeemLocked(w, t, r, q).1.UnknownToken?
  {
    hide ValidateRedeemToken;
  }
}
