/** Any number of concurrent `redeem_token` calls for one token, step by step: take the row lock,
    read the clock and decide, write in the transaction, commit and release, and, outside the lock,
    delete an expired token. */
module RedeemRace {
  import opened Prelude
  import opened Rows
  import opened Clients
  import opened Invariants
  import opened Lifecycle

  /** What one call is about to do. */
  datatype Phase =
    | Waiting
    | Holding
    | Decided(expired: bool, at: int)
    | Written(tables: Tables, answer: Answer, at: int)
    | LateDelete
    | Finished(answer: Answer)

  datatype Entry = Entry(call: nat, now: int)

  /** The committed tables, the clock, the holder of the row lock and the calls.  For the record, `order`
      lists the calls as they reach the lock, and `log` each call that is past it with the time it
      decided at. */
  datatype Race = Race(tables: Tables, now: int, lock: Option<nat>, calls: map<nat, Phase>, order: seq<nat>,
                       log: seq<Entry>)

  /** What does not change: the tables at the start, the token and each call's request for it. */
  datatype Setting = Setting(w: Crypto, start: Tables, token: string, requests: map<nat, Request>)

  datatype Action =
    | Lock(call: nat)
    | Decide(call: nat)
    | Write(call: nat)
    | Commit(call: nat)
    | Delete(call: nat)
    | Tick(seconds: nat)

  ghost predicate ValidSetting(x: Setting) {
    Sound(x.start) && forall p :: p in x.requests ==> x.requests[p].token == x.token
  }

  function Init(x: Setting, now: int): Race {
    Race(x.start, now, None, map p | p in x.requests :: Waiting, [], [])
  }

  function Row(x: Setting, t: Tables): Lookup {
    Get(TokenRows(t, x.token))
  }

  /** An action that is not enabled leaves the race as it is. */
  predicate Enabled(x: Setting, s: Race, a: Action) {
    match a
    case Tick(_) => true
    case Lock(p) => p in s.calls && s.calls[p].Waiting? && s.lock.None?
    case Decide(p) => p in s.calls && s.calls[p].Holding?
    case Write(p) => p in s.calls && s.calls[p].Decided? && !s.calls[p].expired
    case Commit(p) => p in s.calls && (s.calls[p].Written? || (s.calls[p].Decided? && s.calls[p].expired))
    case Delete(p) => p in s.calls && s.calls[p].LateDelete? && s.lock.None?
  }

  /** The call is past the lock with this answer, or with the late delete still to do. */
  function Leave(s: Race, p: nat, ph: Phase, at: int): Race {
    s.(lock := None, calls := s.calls[p := ph], log := s.log + [Entry(p, at)])
  }

  /** `select_for_update().get()` raises where there is no row, and holds the row's lock otherwise. */
  function LockStep(x: Setting, s: Race, p: nat): Race {
    var s' := s.(order := s.order + [p]);
    match Row(x, s.tables)
    case Found(_) => s'.(lock := Some(p), calls := s.calls[p := Holding])
    case Missing => Leave(s', p, Finished(UnknownToken), s.now)
    case Many => Leave(s', p, Finished(Failed(Ambiguous)), s.now)
  }

  function DecideStep(x: Setting, s: Race, p: nat): Race {
    match Row(x, s.tables)
    case Found(r) =>
      assert r in TokenRows(s.tables, x.token);
      s.(calls := s.calls[p := Decided(IsExpired(s.tables.tokens[r], s.now), s.now)])
    case _ => s
  }

  function WriteStep(x: Setting, s: Race, p: nat): Race
    requires p in s.calls && s.calls[p].Decided?
  {
    match Row(x, s.tables)
    case Found(r) =>
      assert r in TokenRows(s.tables, x.token);
      if p in x.requests then
        var (u, answer) := RedeemLocked(x.w, s.tables, r, x.requests[p]);
        s.(calls := s.calls[p := Written(u, answer, s.calls[p].at)])
      else s
    case _ => s
  }

  /** Leaving the atomic block: commit what was written, roll back on an exception, release the lock. */
  function CommitStep(s: Race, p: nat): Race
    requires p in s.calls && (s.calls[p].Written? || s.calls[p].Decided?)
  {
    match s.calls[p]
    case Written(u, answer, at) => Leave(s.(tables := if answer.Redeemed? then u else s.tables), p, Finished(answer),
                                         at)
    case Decided(_, at) => Leave(s, p, LateDelete, at)
  }

  function DeleteStep(x: Setting, s: Race, p: nat): Race {
    s.(tables := DropToken(s.tables, x.token), calls := s.calls[p := Finished(Expired)])
  }

  function Next(x: Setting, s: Race, a: Action): Race {
    if !Enabled(x, s, a) then s
    else match a
      case Tick(seconds) => s.(now := s.now + seconds)
      case Lock(p) => LockStep(x, s, p)
      case Decide(p) => DecideStep(x, s, p)
      case Write(p) => WriteStep(x, s, p)
      case Commit(p) => CommitStep(s, p)
      case Delete(p) => DeleteStep(x, s, p)
  }

  function Execute(x: Setting, s: Race, actions: seq<Action>): Race {
    if actions == [] then s else Next(x, Execute(x, s, actions[..|actions| - 1]), actions[|actions| - 1])
  }

  // ---- The serial run in lock order ---------------------------------------------------------------

  function EventOf(x: Setting, e: Entry): Timed {
    At(e.now, if e.call in x.requests then Redeeming(x.requests[e.call]) else DenyCode(0))
  }

  function Events(x: Setting, log: seq<Entry>): seq<Timed> {
    seq(|log|, i requires 0 <= i < |log| => EventOf(x, log[i]))
  }

  function Serial(x: Setting, log: seq<Entry>): Tables {
    Run(x.w, x.start, Events(x, log))
  }

  /** The answer the `i`-th call gets when the calls run one by one. */
  function SerialAnswer(x: Setting, log: seq<Entry>, i: nat): Reply
    requires i < |log|
  {
    Step(x.w, Serial(x, log[..i]), EventOf(x, log[i])).1
  }

  lemma {:induction false} RunAppend(w: Crypto, t: Tables, es: seq<Timed>, e: Timed)
    ensures Run(w, t, es + [e]) == Step(w, Run(w, t, es), e).0
    decreases |es|
  {
    hide Step;
    if es == [] {
      assert es + [e] == [e];
      assert Run(w, t, [e]) == Run(w, Step(w, t, e).0, []);
    } else {
      assert (es + [e])[1..] == es[1..] + [e];
      RunAppend(w, Step(w, t, es[0]).0, es[1..], e);
    }
  }

  lemma SerialAppend(x: Setting, log: seq<Entry>, e: Entry)
    ensures Serial(x, log + [e]) == Step(x.w, Serial(x, log), EventOf(x, e)).0
  {
    hide Step, Run;
    assert Events(x, log + [e]) == Events(x, log) + [EventOf(x, e)];
    RunAppend(x.w, x.start, Events(x, log), EventOf(x, e));
  }

  /** The call found the token expired; whether it has deleted it yet or not, that is its answer. */
  predicate FoundExpired(ph: Phase) {
    ph.LateDelete? || ph == Finished(Expired)
  }

  /** One of the first `n` calls past the lock found the token expired. */
  predicate EarlierExpired(log: seq<Entry>, calls: map<nat, Phase>, n: nat) {
    exists j :: 0 <= j < n && j < |log| && log[j].call in calls && FoundExpired(calls[log[j].call])
  }

  /** What a call is told when the calls run one by one: the same, except that the first to find the token
      expired deletes it at once, so that the next ones do not find it at all. */
  function Told(a: Answer, earlier: bool): Reply {
    Answered(if a == Expired && earlier then UnknownToken else a)
  }

  // ---- The invariant --------------------------------------------------------------------------------

  predicate InFlight(ph: Phase) { ph.Holding? || ph.Decided? || ph.Written? }

  predicate Past(ph: Phase) { ph.LateDelete? || ph.Finished? }

  ghost predicate Pending(calls: map<nat, Phase>) {
    exists p :: p in calls && calls[p].LateDelete?
  }

  /** Only the lock holder is inside its transaction. */
  ghost predicate LockHeld(lock: Option<nat>, calls: map<nat, Phase>) {
    && (forall p :: p in calls ==> (InFlight(calls[p]) <==> lock == Some(p)))
    && (lock.Some? ==> lock.value in calls)
  }

  function CallsOf(log: seq<Entry>): seq<nat> {
    seq(|log|, i requires 0 <= i < |log| => log[i].call)
  }

  /** The log lists every call past the lock once, in the order in which they reached it. */
  ghost predicate LogMatches(order: seq<nat>, log: seq<Entry>, lock: Option<nat>, calls: map<nat, Phase>) {
    && (forall i :: 0 <= i < |log| ==> log[i].call in calls && Past(calls[log[i].call]))
    && (forall i, j :: 0 <= i < j < |log| ==> log[i].call != log[j].call)
    && (forall p :: p in calls && Past(calls[p]) ==> exists i :: 0 <= i < |log| && log[i].call == p)
    && order == CallsOf(log) + (if lock.Some? then [lock.value] else [])
  }

  /** The committed tables are the serial tables, except that an expired row whose late delete is
      pending is still there. */
  ghost predicate TablesMatch(x: Setting, t: Tables, now: int, pending: bool, serial: Tables) {
    if pending then
      && serial == DropToken(t, x.token)
      && forall r :: r in TokenRows(t, x.token) ==> IsExpired(t.tokens[r], now)
    else serial == t
  }

  /** What the holder has decided, and written, is what redeeming the committed row would do at the time
      it decided; a late delete can only be pending for it to decide that the row has expired. */
  ghost predicate HolderMatches(x: Setting, t: Tables, now: int, pending: bool, p: nat, ph: Phase) {
    && Row(x, t).Found? && Row(x, t).id in t.tokens && p in x.requests
    && match ph
       case Decided(expired, at) => at <= now && expired == IsExpired(t.tokens[Row(x, t).id], at)
           && (!expired ==> !pending)
       case Written(u, answer, at) =>
         at <= now && !IsExpired(t.tokens[Row(x, t).id], at) && !pending
             && (u, answer) == RedeemLocked(x.w, t, Row(x, t).id, x.requests[p])
       case _ => true
  }

  /** What every call past the lock has answered, or will answer after the late delete, decides the serial answer. */
  ghost predicate AnswersMatch(x: Setting, log: seq<Entry>, calls: map<nat, Phase>) {
    forall i :: 0 <= i < |log| && log[i].call in calls ==>
      AnswerMatches(calls[log[i].call], SerialAnswer(x, log, i), EarlierExpired(log, calls, i))
  }

  ghost predicate AnswerMatches(ph: Phase, reply: Reply, earlier: bool) {
    match ph
    case Finished(a) => reply == Told(a, earlier)
    case LateDelete => reply == Told(Expired, earlier)
    case _ => true
  }

  /** Once a call has found the token expired the serial tables do not have it any more. */
  ghost predicate ExpiredGone(x: Setting, log: seq<Entry>, calls: map<nat, Phase>) {
    EarlierExpired(log, calls, |log|) ==> TokenRows(Serial(x, log), x.token) == {}
  }

  ghost predicate Coherent(x: Setting, s: Race) {
    && Sound(s.tables) && s.calls.Keys == x.requests.Keys
    && LockHeld(s.lock, s.calls)
    && LogMatches(s.order, s.log, s.lock, s.calls)
    && (s.lock.Some? && s.lock.value in s.calls ==>
          HolderMatches(x, s.tables, s.now, Pending(s.calls), s.lock.value, s.calls[s.lock.value]))
    && TablesMatch(x, s.tables, s.now, Pending(s.calls), Serial(x, s.log))
    && AnswersMatch(x, s.log, s.calls) && ExpiredGone(x, s.log, s.calls)
  }

  // ---- Bookkeeping ----------------------------------------------------------------------------------

  lemma InitCoherent(x: Setting, now: int)
    requires ValidSetting(x)
    ensures Coherent(x, Init(x, now))
  {
    hide Sound, DropToken, TokenRows;
    assert Events(x, []) == [];
  }

  /** Calls that were logged keep their phases, so which of them found the token expired does not change. */
  lemma SameEarlier(log: seq<Entry>, log': seq<Entry>, calls: map<nat, Phase>, calls': map<nat, Phase>, n: nat)
    requires n <= |log| <= |log'| && log'[..|log|] == log
    requires forall i :: 0 <= i < |log| ==> (log[i].call in calls <==> log[i].call in calls')
    requires forall i :: 0 <= i < |log| && log[i].call in calls ==>
               (FoundExpired(calls[log[i].call]) <==> FoundExpired(calls'[log[i].call]))
    ensures EarlierExpired(log', calls', n) == EarlierExpired(log, calls, n)
  {
    assert forall i :: 0 <= i < |log| ==> log'[i] == log[i];
  }

  /** A call other than by leaving: the log's calls keep their phases. */
  lemma PhaseChanged(x: Setting, order: seq<nat>, order': seq<nat>, log: seq<Entry>, lock: Option<nat>,
                     lock': Option<nat>, calls: map<nat, Phase>, p: nat, ph: Phase)
    requires LogMatches(order, log, lock, calls) && AnswersMatch(x, log, calls) && ExpiredGone(x, log, calls)
    requires p in calls && !Past(calls[p]) && !Past(ph)
    requires (lock' == lock && order' == order) || (lock.None? && lock' == Some(p) && order' == order + [p])
    ensures LogMatches(order', log, lock', calls[p := ph]) && AnswersMatch(x, log, calls[p := ph])
            && ExpiredGone(x, log, calls[p := ph])
    ensures Pending(calls[p := ph]) == Pending(calls)
  {
    hide SerialAnswer, Serial, TokenRows, EarlierExpired;
    var calls' := calls[p := ph];
    forall n: nat | n <= |log| ensures EarlierExpired(log, calls', n) == EarlierExpired(log, calls, n) {
      SameEarlier(log, log, calls, calls', n);
    }
    assert CallsOf(log) + [] == CallsOf(log);
    forall q | q in calls' && Past(calls'[q]) ensures exists i :: 0 <= i < |log| && log[i].call == q {
      assert q in calls && Past(calls[q]);
    }
    if Pending(calls) {
      var q :| q in calls && calls[q].LateDelete?;
      assert q in calls' && calls'[q].LateDelete?;
    }
  }

  /** Leaving the lock appends one entry, whose answer must match. */
  lemma Left(x: Setting, order: seq<nat>, log: seq<Entry>, lock: Option<nat>, calls: map<nat, Phase>, p: nat,
             ph: Phase, at: int)
    requires LogMatches(order, log, lock, calls) && AnswersMatch(x, log, calls)
    requires p in calls && !Past(calls[p]) && Past(ph)
    requires lock == Some(p) || lock.None?
    requires AnswerMatches(ph, SerialAnswer(x, log + [Entry(p, at)], |log|), EarlierExpired(log, calls, |log|))
    requires EarlierExpired(log, calls, |log|) || FoundExpired(ph) ==>
               TokenRows(Serial(x, log + [Entry(p, at)]), x.token) == {}
    ensures LogMatches(if lock.Some? then order else order + [p], log + [Entry(p, at)], None, calls[p := ph])
    ensures AnswersMatch(x, log + [Entry(p, at)], calls[p := ph])
            && ExpiredGone(x, log + [Entry(p, at)], calls[p := ph])
    ensures Pending(calls[p := ph]) == (Pending(calls) || ph.LateDelete?)
  {
    hide SerialAnswer, Serial, TokenRows, EarlierExpired;
    var log', calls' := log + [Entry(p, at)], calls[p := ph];
    LogGrows(order, log, lock, calls, p, ph, at);
    LastEarlier(log, calls, p, ph, at);
    forall i: nat | i < |log'| && log'[i].call in calls'
      ensures AnswerMatches(calls'[log'[i].call], SerialAnswer(x, log', i), EarlierExpired(log', calls', i))
    {
      SameEarlier(log, log', calls, calls', if i < |log| then i else |log|);
      if i < |log| {
        SamePrefix(x, log, log', i);
      }
    }
    if Pending(calls) {
      var q :| q in calls && calls[q].LateDelete?;
      assert q in calls' && calls'[q].LateDelete?;
    }
    if ph.LateDelete? { assert p in calls' && calls'[p].LateDelete?; }
  }

  lemma LastEarlier(log: seq<Entry>, calls: map<nat, Phase>, p: nat, ph: Phase, at: int)
    requires p in calls && forall i :: 0 <= i < |log| ==> log[i].call != p
    ensures EarlierExpired(log + [Entry(p, at)], calls[p := ph], |log| + 1) ==>
              EarlierExpired(log, calls, |log|) || FoundExpired(ph)
  {
    var log', calls' := log + [Entry(p, at)], calls[p := ph];
    if EarlierExpired(log', calls', |log| + 1) {
      var j :| 0 <= j < |log'| && log'[j].call in calls' && FoundExpired(calls'[log'[j].call]);
      if j < |log| { assert log[j].call in calls && FoundExpired(calls[log[j].call]); }
    }
  }

  /** A late delete that is pending is that of a logged call. */
  lemma PendingIsEarlier(order: seq<nat>, log: seq<Entry>, lock: Option<nat>, calls: map<nat, Phase>)
    requires LogMatches(order, log, lock, calls) && Pending(calls)
    ensures EarlierExpired(log, calls, |log|)
  {
    var q :| q in calls && calls[q].LateDelete?;
    var i :| 0 <= i < |log| && log[i].call == q;
  }

  lemma LogGrows(order: seq<nat>, log: seq<Entry>, lock: Option<nat>, calls: map<nat, Phase>, p: nat, ph: Phase,
                 at: int)
    requires LogMatches(order, log, lock, calls)
    requires p in calls && !Past(calls[p]) && Past(ph)
    requires lock == Some(p) || lock.None?
    ensures LogMatches(if lock.Some? then order else order + [p], log + [Entry(p, at)], None, calls[p := ph])
  {
    var log', calls' := log + [Entry(p, at)], calls[p := ph];
    assert CallsOf(log') == CallsOf(log) + [p];
    forall q | q in calls' && Past(calls'[q]) ensures exists i :: 0 <= i < |log'| && log'[i].call == q {
      if q == p {
        assert log'[|log|].call == p;
      } else {
        var i :| 0 <= i < |log| && log[i].call == q;
        assert log'[i].call == q;
      }
    }
  }

  lemma SamePrefix(x: Setting, log: seq<Entry>, log': seq<Entry>, i: nat)
    requires i < |log| && |log| <= |log'| && log'[..|log|] == log
    ensures SerialAnswer(x, log', i) == SerialAnswer(x, log, i)
  {
    hide Step, Serial;
    assert log'[..i] == log[..i];
    assert log'[i] == log[i];
  }

  // ---- The serial effect of one redeem --------------------------------------------------------------

  lemma SerialNext(x: Setting, log: seq<Entry>, p: nat, at: int)
    requires p in x.requests
    ensures var log' := log + [Entry(p, at)];
            && Serial(x, log') == Redeem(x.w, Serial(x, log), x.requests[p], at).0
            && SerialAnswer(x, log', |log|) == Answered(Redeem(x.w, Serial(x, log), x.requests[p], at).1)
  {
    hide Redeem, Serial;
    SerialAppend(x, log, Entry(p, at));
    assert (log + [Entry(p, at)])[..|log|] == log;
  }
}
