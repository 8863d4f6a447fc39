/** A server working off events, one after the other, on the database: what its tables become is the run
    of those events, so that everything proved of runs holds of it. */
module Server {
  import opened Prelude
  import opened Rows
  import opened Clients
  import opened DeviceCodes
  import opened DatabaseServices
  import opened Invariants
  import opened Lifecycle
  import Traces

  /** `create_redeem_token`: `update_or_create` by the token string. */
  method CreateRedeemToken(db: Database, e: Event) returns (r: Result<nat, Error>)
    requires e.Issue?
    modifies db
    ensures Atomic(old(db.tables), db.tables, r, IssueToken(old(db.tables), e))
  {
    if e.composition !in db.tables.compositions {
      return Err(Integrity);
    }
    match Get(TokenRows(db.tables, e.token)) {
      case Found(k) =>
        assert k in TokenRows(db.tables, e.token);
        var row := db.tables.tokens[k];
        db.tables := db.tables.(tokens := db.tables.tokens[k := row.(user := e.user, composition := e.composition)]);
        return Ok(k);
      case Missing =>
        var k := db.tables.nextId;
        var row := RedeemToken(e.token, e.user, e.composition, None, e.expiresAt, None, e.allowReredeem);
        db.tables := db.tables.(nextId := k + 1, tokens := db.tables.tokens[k := row]);
        return Ok(k);
      case Many =>
        return Err(Ambiguous);
    }
  }

  /** `accept_device_code`. */
  method AcceptCode(db: Database, k: nat, a: Acceptance) returns (r: Result<nat, Error>)
    modifies db
    ensures Atomic(old(db.tables), db.tables, r, AcceptDeviceCode(db.w, old(db.tables), k, a))
  {
    hide ValidateDeviceCode;
    if k !in db.tables.codes || a.composition !in db.tables.compositions {
      return Err(NoCode);
    }
    r := db.ValidateDeviceCode(k, db.tables.compositions[a.composition].organization, a);
  }

  method DenyDeviceCode(db: Database, k: nat)
    modifies db
    ensures db.tables == Deny(old(db.tables), k)
  {
    if k in db.tables.codes {
      var row := db.tables.codes[k];
      db.tables := db.tables.(codes := db.tables.codes[k := row.(denied := true)]);
    }
  }

  function ReplyTo(r: Result<nat, Error>): Reply {
    match r
    case Ok(id) => Created(id)
    case Err(e) => Refused(e)
  }

  lemma AtomicOutcome(before: Tables, after: Tables, r: Result<nat, Error>, spec: Result<(Tables, nat), Error>)
    requires Atomic(before, after, r, spec)
    ensures (after, ReplyTo(r)) == Outcome(before, spec)
  {
  }

  /** One event. */
  method Handle(db: Database, e: Timed) returns (reply: Reply)
    modifies db
    ensures (db.tables, reply) == Step(db.w, old(db.tables), e)
  {
    hide CreateClient, IssueToken, Redeem, StartDeviceCode, AcceptDeviceCode, Deny, Challenge, Atomic, Outcome, ReplyTo;
    ghost var t := db.tables;
    match e.event {
      case Register(order) =>
        var r := db.CreateClient(order);
        AtomicOutcome(t, db.tables, r, CreateClient(db.w, t, order));
        return ReplyTo(r);
      case Issue(_, _, _, _, _) =>
        var r := CreateRedeemToken(db, e.event);
        AtomicOutcome(t, db.tables, r, IssueToken(t, e.event));
        return ReplyTo(r);
      case Redeeming(request) =>
        var answer := db.RedeemToken(request, e.now);
        return Answered(answer);
      case Start(staging, code, download) =>
        var r := db.StartDeviceCode(staging, code, download, e.now);
        AtomicOutcome(t, db.tables, r, StartDeviceCode(t, staging, code, download, e.now));
        return ReplyTo(r);
      case Accept(row, acceptance) =>
        var r := AcceptCode(db, row, acceptance);
        AtomicOutcome(t, db.tables, r, AcceptDeviceCode(db.w, t, row, acceptance));
        return ReplyTo(r);
      case DenyCode(row) =>
        DenyDeviceCode(db, row);
        return Created(row);
      case PollCode(code) =>
        var p := db.PollDeviceCode(code, e.now);
        return Polled(p);
    }
  }

  /** Any sequence of events: the tables become what the run says, and stay sound, with the statuses and
      mappings of every client in agreement where manifests list each key once. */
  method Serve(db: Database, es: seq<Timed>)
    requires Sound(db.tables)
    modifies db
    ensures db.tables == Run(db.w, old(db.tables), es)
    ensures Sound(db.tables)
    ensures Traces.AllDistinct(es) && DistinctCodes(old(db.tables).codes) && StatusesAgree(old(db.tables)) ==>
              StatusesAgree(db.tables)
  {
    hide Sound, StatusesAgree, Step, Traces.AllDistinct, DistinctCodes, Extends;
    ghost var t := db.tables;
    for i := 0 to |es|
      invariant Run(db.w, db.tables, es[i..]) == Run(db.w, t, es)
    {
      assert es[i..][0] == es[i] && es[i..][1..] == es[i + 1..];
      var reply := Handle(db, es[i]);
    }
    Traces.RunKeeps(db.w, t, es, false);
    if Traces.AllDistinct(es) && DistinctCodes(t.codes) {
      Traces.RunKeeps(db.w, t, es, true);
    }
  }
}
