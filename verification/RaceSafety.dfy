/** What every interleaving of concurrent redeems guarantees. */
module RaceSafety {
  import opened Prelude
  import opened Rows
  import opened Clients
  import opened Invariants
  import opened Lifecycle
  import opened TokenTraces
  import opened RedeemRace

  // ---- Each action keeps the race coherent --------------------------------------------------------

  lemma LookupOf(x: Setting, t: Tables)
    requires Sound(t)
    ensures !Row(x, t).Many?
    ensures Row(x, t).Found? ==> Row(x, t).id in t.tokens && TokenRows(t, x.token) == {Row(x, t).id}
    ensures Row(x, t).Missing? ==> TokenRows(t, x.token) == {}
  {
    hide SoundRegistry, OneTokenPerClient, TokensHold, UniqueCodes, CodesHold, Drawn, UniqueMemberships, UniqueScopes,
      First;
    var rows := TokenRows(t, x.token);
    assert forall r :: r in rows ==> r in t.tokens && t.tokens[r].token == x.token;
    assert forall a, b | a in rows && b in rows :: a == b;
  }

  lemma Drop(x: Setting, t: Tables)
    ensures TokenRows(DropToken(t, x.token), x.token) == {}
    ensures DropToken(DropToken(t, x.token), x.token) == DropToken(t, x.token)
  {
    var u := DropToken(t, x.token);
    assert TokenRows(u, x.token) == {};
    assert u.tokens - {} == u.tokens;
  }

  /** Redeeming where there is no row changes nothing. */
  lemma RedeemNothing(w: Crypto, t: Tables, q: Request, now: int)
    requires TokenRows(t, q.token) == {}
    ensures Redeem(w, t, q, now) == (t, UnknownToken)
  {
    hide TokenRows, RedeemLocked, DropToken;
  }

  lemma RedeemExpired(w: Crypto, t: Tables, q: Request, now: int, r: nat)
    requires Get(TokenRows(t, q.token)) == Found(r) && r in t.tokens && IsExpired(t.tokens[r], now)
    ensures Redeem(w, t, q, now) == (DropToken(t, q.token), Expired)
  {
    hide TokenRows, RedeemLocked, DropToken;
  }

  lemma RedeemValid(w: Crypto, t: Tables, q: Request, now: int, r: nat)
    requires Get(TokenRows(t, q.token)) == Found(r) && r in t.tokens && !IsExpired(t.tokens[r], now)
    ensures Redeem(w, t, q, now) == RedeemLocked(w, t, r, q)
  {
    hide TokenRows, RedeemLocked, DropToken;
  }

  lemma TickCoherent(x: Setting, s: Race, seconds: nat)
    requires Coherent(x, s)
    ensures Coherent(x, s.(now := s.now + seconds))
  {
    hide Sound, Serial, DropToken, TokenRows, Row, LockHeld, LogMatches, AnswersMatch, ExpiredGone, RedeemLocked,
      Pending;
  }

  lemma LockFound(x: Setting, s: Race, p: nat)
    requires Coherent(x, s) && Enabled(x, s, Lock(p)) && Row(x, s.tables).Found?
    ensures Coherent(x, LockStep(x, s, p))
  {
    hide Sound, Serial, DropToken, TokenRows, Row, LogMatches, AnswersMatch, ExpiredGone, TablesMatch, Pending;
    LookupOf(x, s.tables);
    PhaseChanged(x, s.order, s.order + [p], s.log, s.lock, Some(p), s.calls, p, Holding);
  }

  lemma LockMissing(x: Setting, s: Race, p: nat)
    requires ValidSetting(x) && Coherent(x, s) && Enabled(x, s, Lock(p)) && Row(x, s.tables).Missing?
    ensures Coherent(x, LockStep(x, s, p))
  {
    hide Sound, Serial, SerialAnswer, DropToken, TokenRows, LogMatches, AnswersMatch, ExpiredGone, EarlierExpired,
      Pending, Redeem, Get;
    LookupOf(x, s.tables);
    Drop(x, s.tables);
    SerialNext(x, s.log, p, s.now);
    RedeemNothing(x.w, Serial(x, s.log), x.requests[p], s.now);
    Left(x, s.order, s.log, s.lock, s.calls, p, Finished(UnknownToken), s.now);
  }

  lemma DecideCoherent(x: Setting, s: Race, p: nat)
    requires Coherent(x, s) && Enabled(x, s, Decide(p))
    ensures Coherent(x, DecideStep(x, s, p))
  {
    hide Sound, Serial, DropToken, TokenRows, LogMatches, AnswersMatch, ExpiredGone, Pending, RedeemLocked, First,
      IsExpired;
    LookupOf(x, s.tables);
    var expired := IsExpired(s.tables.tokens[Row(x, s.tables).id], s.now);
    PhaseChanged(x, s.order, s.order, s.log, s.lock, s.lock, s.calls, p, Decided(expired, s.now));
  }

  lemma WriteCoherent(x: Setting, s: Race, p: nat)
    requires Coherent(x, s) && Enabled(x, s, Write(p))
    ensures Coherent(x, WriteStep(x, s, p))
  {
    hide Sound, Serial, DropToken, TokenRows, LogMatches, AnswersMatch, ExpiredGone, TablesMatch, Pending,
      RedeemLocked, First, IsExpired;
    LookupOf(x, s.tables);
    var (u, answer) := RedeemLocked(x.w, s.tables, Row(x, s.tables).id, x.requests[p]);
    PhaseChanged(x, s.order, s.order, s.log, s.lock, s.lock, s.calls, p, Written(u, answer, s.calls[p].at));
  }

  lemma NoGrantNoChange(w: Crypto, t: Tables, r: nat, q: Request)
    requires r in t.tokens && !RedeemLocked(w, t, r, q).1.Redeemed?
    ensures RedeemLocked(w, t, r, q).0 == t
  {
    hide ValidateRedeemToken;
  }

  lemma LockedIsNotExpired(w: Crypto, t: Tables, r: nat, q: Request)
    requires r in t.tokens
    ensures RedeemLocked(w, t, r, q).1 != Expired
  {
    hide ValidateRedeemToken;
  }

  lemma CommitWritten(x: Setting, s: Race, p: nat)
    requires ValidSetting(x) && Coherent(x, s) && Enabled(x, s, Commit(p)) && s.calls[p].Written?
    ensures Coherent(x, CommitStep(s, p))
  {
    hide Sound, Serial, SerialAnswer, DropToken, TokenRows, LogMatches, AnswersMatch, EarlierExpired, Pending,
      RedeemLocked, Redeem, First, IsExpired, Extends, StatusesAgree;
    LookupOf(x, s.tables);
    var t, q, at, r := s.tables, x.requests[p], s.calls[p].at, Row(x, s.tables).id;
    LockedKeeps(x.w, t, r, q, false);
    if !s.calls[p].answer.Redeemed? { NoGrantNoChange(x.w, t, r, q); }
    SerialNext(x, s.log, p, at);
    RedeemValid(x.w, t, q, at, r);
    LockedIsNotExpired(x.w, t, r, q);
    Left(x, s.order, s.log, s.lock, s.calls, p, Finished(s.calls[p].answer), at);
  }

  lemma CommitExpired(x: Setting, s: Race, p: nat)
    requires ValidSetting(x) && Coherent(x, s) && Enabled(x, s, Commit(p)) && s.calls[p].Decided?
    ensures Coherent(x, CommitStep(s, p))
  {
    hide Sound, Serial, SerialAnswer, DropToken, TokenRows, LogMatches, AnswersMatch, EarlierExpired, Pending,
      RedeemLocked, Redeem, First;
    LookupOf(x, s.tables);
    Drop(x, s.tables);
    var t, q, at, r := s.tables, x.requests[p], s.calls[p].at, Row(x, s.tables).id;
    SerialNext(x, s.log, p, at);
    if Pending(s.calls) {
      PendingIsEarlier(s.order, s.log, s.lock, s.calls);
      RedeemNothing(x.w, DropToken(t, x.token), q, at);
    } else {
      RedeemExpired(x.w, t, q, at, r);
    }
    Left(x, s.order, s.log, s.lock, s.calls, p, LateDelete, at);
  }

  /** The late delete changes one phase, of a call that is past the lock before and after. */
  lemma PastChanged(x: Setting, order: seq<nat>, log: seq<Entry>, lock: Option<nat>, calls: map<nat, Phase>, p: nat)
    requires LogMatches(order, log, lock, calls) && AnswersMatch(x, log, calls) && ExpiredGone(x, log, calls)
    requires p in calls && calls[p].LateDelete?
    ensures LogMatches(order, log, lock, calls[p := Finished(Expired)])
    ensures AnswersMatch(x, log, calls[p := Finished(Expired)]) && ExpiredGone(x, log, calls[p := Finished(Expired)])
    ensures Pending(calls)
  {
    hide SerialAnswer, Serial, TokenRows, EarlierExpired;
    var calls' := calls[p := Finished(Expired)];
    forall n: nat | n <= |log| ensures EarlierExpired(log, calls', n) == EarlierExpired(log, calls, n) {
      SameEarlier(log, log, calls, calls', n);
    }
    forall q | q in calls' && Past(calls'[q]) ensures exists i :: 0 <= i < |log| && log[i].call == q {
      assert q in calls && Past(calls[q]);
    }
  }

  lemma DropKeeps(t: Tables, token: string)
    requires Sound(t)
    ensures Sound(DropToken(t, token))
  {
    hide Sound, TokenRows, Extends, StatusesAgree;
    FewerVouchers(t, DropToken(t, token));
  }

  lemma DeleteCoherent(x: Setting, s: Race, p: nat)
    requires Coherent(x, s) && Enabled(x, s, Delete(p))
    ensures Coherent(x, DeleteStep(x, s, p))
  {
    hide Sound, Serial, DropToken, TokenRows, LogMatches, AnswersMatch, ExpiredGone, Pending, Row;
    DropKeeps(s.tables, x.token);
    Drop(x, s.tables);
    PastChanged(x, s.order, s.log, s.lock, s.calls, p);
  }

  lemma NextCoherent(x: Setting, s: Race, a: Action)
    requires ValidSetting(x) && Coherent(x, s)
    ensures Coherent(x, Next(x, s, a))
  {
    hide Coherent, ValidSetting, LockStep, DecideStep, WriteStep, CommitStep, DeleteStep, Row;
    if Enabled(x, s, a) {
      match a
      case Tick(seconds) => TickCoherent(x, s, seconds);
      case Lock(p) => LockCoherent(x, s, p);
      case Decide(p) => DecideCoherent(x, s, p);
      case Write(p) => WriteCoherent(x, s, p);
      case Commit(p) => if s.calls[p].Written? { CommitWritten(x, s, p); } else { CommitExpired(x, s, p); }
      case Delete(p) => DeleteCoherent(x, s, p);
    }
  }

  lemma LockCoherent(x: Setting, s: Race, p: nat)
    requires ValidSetting(x) && Coherent(x, s) && Enabled(x, s, Lock(p))
    ensures Coherent(x, LockStep(x, s, p))
  {
    hide ValidSetting, LockStep, Row, Sound, LogMatches, AnswersMatch, ExpiredGone, TablesMatch, LockHeld;
    LookupOf(x, s.tables);
    if Row(x, s.tables).Found? { LockFound(x, s, p); } else { LockMissing(x, s, p); }
  }

  lemma {:induction false} ExecuteCoherent(x: Setting, now: int, actions: seq<Action>)
    requires ValidSetting(x)
    ensures Coherent(x, Execute(x, Init(x, now), actions))
  {
    hide ValidSetting, Coherent, Next, Init;
    InitCoherent(x, now);
    if actions != [] {
      ExecuteCoherent(x, now, actions[..|actions| - 1]);
      NextCoherent(x, Execute(x, Init(x, now), actions[..|actions| - 1]), actions[|actions| - 1]);
    }
  }

  // ---- Every interleaving is like running the calls one by one ---------------------------------------

  /** Where in lock order a call past the lock stands. */
  lemma Place(x: Setting, s: Race, p: nat) returns (i: nat)
    requires Coherent(x, s) && p in s.calls && s.calls[p].Finished?
    ensures i < |s.log| && s.log[i].call == p && i < |s.order| && s.order[i] == p
    ensures SerialAnswer(x, s.log, i) == Told(s.calls[p].answer, EarlierExpired(s.log, s.calls, i))
  {
    hide Sound, Serial, SerialAnswer, LockHeld, HolderMatches, TablesMatch, ExpiredGone, EarlierExpired;
    i :| 0 <= i < |s.log| && s.log[i].call == p;
  }

  /** Run the calls one by one, in the order in which they reached the lock and each at the time it
      read the clock: every answer given is the serial one, except that of the calls that are told the
      token has expired only the first is told so in the serial run; the others do not find it.  Once
      nobody holds the lock and no late delete is pending, the tables are the serial ones too. */
  lemma ConcurrentRedeemsSerialize(x: Setting, now: int, actions: seq<Action>)
    requires ValidSetting(x)
    ensures var s := Execute(x, Init(x, now), actions);
            && (forall p :: p in s.calls && s.calls[p].Finished? ==>
                  exists i :: 0 <= i < |s.log| && i < |s.order| && s.order[i] == s.log[i].call == p
                              && SerialAnswer(x, s.log, i)
                                 == Told(s.calls[p].answer, EarlierExpired(s.log, s.calls, i)))
            && (forall i, j :: 0 <= i < j < |s.log| ==> s.log[i].call != s.log[j].call)
            && ((forall p :: p in s.calls ==> !s.calls[p].LateDelete?) ==> s.tables == Serial(x, s.log))
  {
    hide Execute, Init, ValidSetting, Coherent, Told, EarlierExpired, SerialAnswer, Serial;
    var s := Execute(x, Init(x, now), actions);
    ExecuteCoherent(x, now, actions);
    forall p | p in s.calls && s.calls[p].Finished?
      ensures exists i :: 0 <= i < |s.log| && i < |s.order| && s.order[i] == s.log[i].call == p
                          && SerialAnswer(x, s.log, i) == Told(s.calls[p].answer, EarlierExpired(s.log, s.calls, i))
    {
      var i := Place(x, s, p);
    }
    Settled(x, s);
  }

  lemma Settled(x: Setting, s: Race)
    requires Coherent(x, s)
    ensures forall i, j :: 0 <= i < j < |s.log| ==> s.log[i].call != s.log[j].call
    ensures (forall p :: p in s.calls ==> !s.calls[p].LateDelete?) ==> s.tables == Serial(x, s.log)
  {
    hide Sound, Serial, SerialAnswer, LockHeld, HolderMatches, AnswersMatch, ExpiredGone;
  }

  /** The times at which the calls read the clock do not go back along the log. */
  ghost predicate Timely(s: Race) {
    && (forall i, j :: 0 <= i < j < |s.log| ==> s.log[i].now <= s.log[j].now)
    && (forall i :: 0 <= i < |s.log| ==> s.log[i].now <= s.now)
    && (forall p, i :: p in s.calls && (s.calls[p].Decided? || s.calls[p].Written?) && 0 <= i < |s.log| ==>
          s.log[i].now <= s.calls[p].at)
    && (forall p :: p in s.calls && (s.calls[p].Decided? || s.calls[p].Written?) ==> s.calls[p].at <= s.now)
  }

  lemma LeaveTimely(s: Race, p: nat, ph: Phase, at: int)
    requires Timely(s) && p in s.calls && Past(ph) && at <= s.now
    requires forall i :: 0 <= i < |s.log| ==> s.log[i].now <= at
    requires forall q :: q in s.calls && q != p ==> !InFlight(s.calls[q])
    ensures Timely(Leave(s, p, ph, at))
  {
  }

  lemma Alone(x: Setting, s: Race, p: nat)
    requires Coherent(x, s) && (s.lock.None? || s.lock == Some(p))
    ensures forall q :: q in s.calls && q != p ==> !InFlight(s.calls[q])
  {
    hide Sound, Serial, AnswersMatch, ExpiredGone, LogMatches, HolderMatches, TablesMatch;
  }

  lemma HolderIs(x: Setting, s: Race, p: nat)
    requires Coherent(x, s) && p in s.calls && InFlight(s.calls[p])
    ensures s.lock == Some(p)
  {
    hide Sound, Serial, AnswersMatch, ExpiredGone, LogMatches, HolderMatches, TablesMatch;
  }

  /** Ticking, deciding, writing and deleting leave the log alone. */
  lemma InsideTimely(x: Setting, s: Race, a: Action)
    requires Timely(s) && Enabled(x, s, a) && !a.Lock? && !a.Commit?
    ensures Timely(Next(x, s, a))
  {
    hide Row, RedeemLocked, DropToken, IsExpired;
  }

  lemma LockTimely(x: Setting, s: Race, p: nat)
    requires Coherent(x, s) && Timely(s) && Enabled(x, s, Lock(p))
    ensures Timely(LockStep(x, s, p))
  {
    hide Coherent, Row, Leave;
    Alone(x, s, p);
    LeaveTimely(s.(order := s.order + [p]), p, Finished(UnknownToken), s.now);
    LeaveTimely(s.(order := s.order + [p]), p, Finished(Failed(Ambiguous)), s.now);
  }

  lemma CommitTimely(x: Setting, s: Race, p: nat)
    requires Coherent(x, s) && Timely(s) && Enabled(x, s, Commit(p))
    ensures Timely(CommitStep(s, p))
  {
    hide Coherent, Leave;
    HolderIs(x, s, p);
    Alone(x, s, p);
    if s.calls[p].Written? {
      var u := if s.calls[p].answer.Redeemed? then s.calls[p].tables else s.tables;
      LeaveTimely(s.(tables := u), p, Finished(s.calls[p].answer), s.calls[p].at);
    } else {
      LeaveTimely(s, p, LateDelete, s.calls[p].at);
    }
  }

  lemma NextTimely(x: Setting, s: Race, a: Action)
    requires Coherent(x, s) && Timely(s)
    ensures Timely(Next(x, s, a))
  {
    hide Coherent, Timely, LockStep, DecideStep, WriteStep, CommitStep, DeleteStep;
    if Enabled(x, s, a) {
      match a
      case Lock(p) => LockTimely(x, s, p);
      case Commit(p) => CommitTimely(x, s, p);
      case _ => InsideTimely(x, s, a);
    }
  }

  /** The serial run reads a clock that never goes back. */
  lemma {:induction false} SerialClockNeverFalls(x: Setting, now: int, actions: seq<Action>)
    requires ValidSetting(x)
    ensures Timely(Execute(x, Init(x, now), actions))
  {
    hide ValidSetting, Coherent, Next;
    if actions != [] {
      var before := actions[..|actions| - 1];
      ExecuteCoherent(x, now, before);
      SerialClockNeverFalls(x, now, before);
      NextTimely(x, Execute(x, Init(x, now), before), actions[|actions| - 1]);
    }
  }

  /** The delete outside the lock only ever removes a row that has expired. */
  lemma LateDeleteIsSafe(x: Setting, now: int, actions: seq<Action>, p: nat)
    requires ValidSetting(x)
    ensures var s := Execute(x, Init(x, now), actions);
            Enabled(x, s, Delete(p)) ==>
              forall r :: r in s.tables.tokens && r !in Next(x, s, Delete(p)).tables.tokens ==>
                IsExpired(s.tables.tokens[r], s.now)
  {
    hide ValidSetting, Coherent, Execute, IsExpired;
    ExecuteCoherent(x, now, actions);
    var s := Execute(x, Init(x, now), actions);
    if Enabled(x, s, Delete(p)) { PendingExpired(x, s, p); }
  }

  lemma PendingExpired(x: Setting, s: Race, p: nat)
    requires Coherent(x, s) && p in s.calls && s.calls[p].LateDelete?
    ensures forall r :: r in TokenRows(s.tables, x.token) ==> IsExpired(s.tables.tokens[r], s.now)
  {
    hide Sound, Serial, LockHeld, LogMatches, HolderMatches, AnswersMatch, ExpiredGone, DropToken, TokenRows, IsExpired;
  }

  // ---- One client for all grants --------------------------------------------------------------------

  /** A grant at one point of a run is among the run's grants. */
  lemma {:induction false} GrantCounts(w: Crypto, t: Tables, es: seq<Timed>, i: nat, r: nat, g: Award)
    requires i < |es| && GrantOf(w, Run(w, t, es[..i]), es[i], r) == Some(g)
    ensures g in Grants(w, t, es, r)
    decreases i
  {
    hide GrantOf, Step;
    if i > 0 {
      assert es[..i][1..] == es[1..][..i - 1];
      GrantCounts(w, Step(w, t, es[0]).0, es[1..], i - 1, r, g);
    } else {
      assert es[..0] == [];
    }
  }

  predicate OnlyRedeems(es: seq<Timed>) {
    forall i :: 0 <= i < |es| ==> es[i].event.Redeeming?
  }

  /** Redeeming adds no token rows and renames none. */
  lemma RedeemAddsNoRow(w: Crypto, t: Tables, q: Request, now: int, r: nat)
    requires r in Redeem(w, t, q, now).0.tokens
    ensures r in t.tokens && t.tokens[r].token == Redeem(w, t, q, now).0.tokens[r].token
  {
    hide TokenRows, RedeemLocked, First, IsExpired;
    match Get(TokenRows(t, q.token))
    case Found(k) =>
      InRows(t, q.token, k);
      LockedAddsNoRow(w, t, k, q);
    case Missing =>
    case Many =>
  }

  predicate WritesRow(before: map<nat, RedeemToken>, after: map<nat, RedeemToken>, k: nat) {
    k in before && k in after && after == before[k := after[k]]
    && after[k].token == before[k].token && after[k].composition == before[k].composition
  }

  lemma RowWritten(tokens: map<nat, RedeemToken>, k: nat, client: Option<nat>, hash: Option<string>)
    requires k in tokens
    ensures WritesRow(tokens, tokens[k := tokens[k].(client := client, manifestHash := hash)], k)
    ensures WritesRow(tokens, tokens, k)
  {
    assert tokens == tokens[k := tokens[k]];
  }

  /** Only the redeemed row is written. */
  lemma LockedWrites(w: Crypto, t: Tables, k: nat, q: Request)
    requires k in t.tokens
    ensures WritesRow(t.tokens, RedeemLocked(w, t, k, q).0.tokens, k)
  {
    hide ValidateRedeemToken, WritesRow;
    var row, hash := t.tokens[k], w.manifestHash(q.manifest);
    if row.client.Some? && (row.manifestHash.None? || row.manifestHash == Some(hash)) {
      RowWritten(t.tokens, k, row.client, Some(hash));
    } else if !RedeemLocked(w, t, k, q).1.Redeemed? {
      RowWritten(t.tokens, k, row.client, None);
    } else {
      ValidateWrites(w, t, k, q);
      var (u, c) := ValidateRedeemToken(w, t, k, q).value;
      RowWritten(t.tokens, k, Some(c), Some(hash));
      assert u.tokens[k := u.tokens[k].(manifestHash := Some(hash))]
          == t.tokens[k := row.(client := Some(c), manifestHash := Some(hash))];
    }
  }

  lemma LockedAddsNoRow(w: Crypto, t: Tables, k: nat, q: Request)
    requires k in t.tokens
    ensures var u := RedeemLocked(w, t, k, q).0;
            forall r :: r in u.tokens ==> r in t.tokens && t.tokens[r].token == u.tokens[r].token
  {
    hide RedeemLocked;
    LockedWrites(w, t, k, q);
  }

  lemma {:induction false} RedeemsAddNoRow(w: Crypto, t: Tables, es: seq<Timed>, r: nat)
    requires OnlyRedeems(es) && r in Run(w, t, es).tokens
    ensures r in t.tokens && t.tokens[r].token == Run(w, t, es).tokens[r].token
    decreases |es|
  {
    hide Redeem;
    if es != [] {
      var u := Redeem(w, t, es[0].event.request, es[0].now).0;
      assert Step(w, t, es[0]).0 == u;
      RedeemsAddNoRow(w, u, es[1..], r);
      RedeemAddsNoRow(w, t, es[0].event.request, es[0].now, r);
    }
  }

  /** The row a serial grant is made on is the token's row from the start. */
  lemma SerialGrant(x: Setting, log: seq<Entry>, i: nat, client: nat, r: nat)
    requires ValidSetting(x) && Row(x, x.start) == Found(r)
    requires i < |log| && forall j :: 0 <= j < |log| ==> log[j].call in x.requests
    requires SerialAnswer(x, log, i) == Answered(Redeemed(client))
    ensures Award(client, x.w.manifestHash(x.requests[log[i].call].manifest)) in Grants(x.w, x.start, Events(x, log), r)
  {
    hide Redeem, Sound, Run, TokenRows, Grants, First, Get;
    var es, e := Events(x, log), EventOf(x, log[i]);
    assert es[..i] == Events(x, log[..i]);
    var t, q := Run(x.w, x.start, es[..i]), x.requests[log[i].call];
    GrantedOnRow(x.w, t, q, e.now, client);
    var k := Get(TokenRows(t, q.token)).id;
    InRows(t, x.token, k);
    RedeemsAddNoRow(x.w, x.start, es[..i], k);
    RowIs(x.start, x.token, k, r);
    GrantCounts(x.w, x.start, es, i, r, Award(client, x.w.manifestHash(q.manifest)));
  }

  lemma RowIs(t: Tables, token: string, k: nat, r: nat)
    requires Get(TokenRows(t, token)) == Found(r) && k in t.tokens && t.tokens[k].token == token
    ensures k == r
  {
    hide First;
    assert k in TokenRows(t, token);
  }

  lemma GrantedOnRow(w: Crypto, t: Tables, q: Request, now: int, client: nat)
    requires Redeem(w, t, q, now).1 == Redeemed(client)
    ensures Get(TokenRows(t, q.token)).Found? && TokenRows(t, q.token) == {Get(TokenRows(t, q.token)).id}
  {
    hide TokenRows, RedeemLocked, First;
  }

  /** Without `allow_reredeem`, all calls that are granted a client are granted the same client, and
      for manifests with one digest, whatever the interleaving. */
  lemma ConcurrentGrantsAgree(x: Setting, now: int, actions: seq<Action>, p: nat, q: nat)
    requires ValidSetting(x)
    requires forall r :: r in x.start.tokens && x.start.tokens[r].token == x.token ==> !x.start.tokens[r].allowReredeem
    ensures var s := Execute(x, Init(x, now), actions);
            p in s.calls && s.calls[p].Finished? && s.calls[p].answer.Redeemed? &&
            q in s.calls && s.calls[q].Finished? && s.calls[q].answer.Redeemed? && p in x.requests
                && q in x.requests ==>
              && s.calls[p].answer == s.calls[q].answer
              && x.w.manifestHash(x.requests[p].manifest) == x.w.manifestHash(x.requests[q].manifest)
  {
    hide ValidSetting, Coherent, Execute, Init, Events, SerialAnswer, Grants, Row;
    ExecuteCoherent(x, now, actions);
    var s := Execute(x, Init(x, now), actions);
    if p in s.calls && q in s.calls && p in x.requests && q in x.requests {
      if s.calls[p].Finished? && s.calls[p].answer.Redeemed? && s.calls[q].Finished? && s.calls[q].answer.Redeemed? {
        GrantsAgree(x, s, p, q);
      }
    }
  }

  lemma GrantsAgree(x: Setting, s: Race, p: nat, q: nat)
    requires ValidSetting(x) && Coherent(x, s) && p in x.requests && q in x.requests
    requires forall r :: r in x.start.tokens && x.start.tokens[r].token == x.token ==> !x.start.tokens[r].allowReredeem
    requires p in s.calls && s.calls[p].Finished? && s.calls[p].answer.Redeemed?
    requires q in s.calls && s.calls[q].Finished? && s.calls[q].answer.Redeemed?
    ensures s.calls[p].answer == s.calls[q].answer
    ensures x.w.manifestHash(x.requests[p].manifest) == x.w.manifestHash(x.requests[q].manifest)
  {
    hide Coherent, EarlierExpired, Events, SerialAnswer, Grants, Sound, Row;
    var i := Place(x, s, p);
    var j := Place(x, s, q);
    LogCalls(x, s);
    var r := StartRow(x, s.log, i, s.calls[p].answer.client);
    SerialGrant(x, s.log, i, s.calls[p].answer.client, r);
    SerialGrant(x, s.log, j, s.calls[q].answer.client, r);
    OneGrant(x.w, x.start, Events(x, s.log), r);
    SameAward(Grants(x.w, x.start, Events(x, s.log), r), x.start.tokens[r],
              Award(s.calls[p].answer.client, x.w.manifestHash(x.requests[p].manifest)),
              Award(s.calls[q].answer.client, x.w.manifestHash(x.requests[q].manifest)));
  }

  lemma SameAward(gs: seq<Award>, row: RedeemToken, a: Award, b: Award)
    requires Uniform(gs, row.client, row.manifestHash) && a in gs && b in gs
    ensures a == b
  {
  }

  lemma LogCalls(x: Setting, s: Race)
    requires Coherent(x, s)
    ensures forall j :: 0 <= j < |s.log| ==> s.log[j].call in x.requests
  {
    hide Sound, Serial, LockHeld, HolderMatches, TablesMatch, AnswersMatch, ExpiredGone;
  }

  /** Something was granted, so the token had a row at the start. */
  lemma StartRow(x: Setting, log: seq<Entry>, i: nat, client: nat) returns (r: nat)
    requires ValidSetting(x) && i < |log| && forall j :: 0 <= j < |log| ==> log[j].call in x.requests
    requires SerialAnswer(x, log, i) == Answered(Redeemed(client))
    ensures Row(x, x.start) == Found(r) && r in x.start.tokens && x.start.tokens[r].token == x.token
  {
    hide Redeem, Sound, Run, TokenRows, First, Get;
    var es, e := Events(x, log), EventOf(x, log[i]);
    assert es[..i] == Events(x, log[..i]);
    var t, q := Run(x.w, x.start, es[..i]), x.requests[log[i].call];
    GrantedOnRow(x.w, t, q, e.now, client);
    var k := Get(TokenRows(t, q.token)).id;
    InRows(t, x.token, k);
    RedeemsAddNoRow(x.w, x.start, es[..i], k);
    LookupOf(x, x.start);
    HasRow(x.start, x.token, k);
    r := Row(x, x.start).id;
    InRows(x.start, x.token, r);
  }

  lemma HasRow(t: Tables, token: string, k: nat)
    requires k in t.tokens && t.tokens[k].token == token
    ensures TokenRows(t, token) != {}
  {
    assert k in TokenRows(t, token);
  }
}
