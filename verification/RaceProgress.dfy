/** Concurrent redeems never get stuck: every step takes its call further, and all calls can always finish. */
module RaceProgress {
  import opened Prelude
  import opened Clients
  import opened Invariants
  import opened RedeemRace
  import opened RaceSafety

  function Stage(ph: Phase): nat {
    match ph
    case Waiting => 0
    case Holding => 1
    case Decided(_, _) => 2
    case Written(_, _, _) => 3
    case LateDelete => 4
    case Finished(_) => 5
  }

  predicate Takes(a: Action, p: nat) {
    match a
    case Tick(_) => false
    case Lock(q) => q == p
    case Decide(q) => q == p
    case Write(q) => q == p
    case Commit(q) => q == p
    case Delete(q) => q == p
  }

  /** The call gets further, and no other call is touched. */
  ghost predicate Advances(before: map<nat, Phase>, after: map<nat, Phase>, p: nat) {
    p in before && p in after && after == before[p := after[p]] && Stage(before[p]) < Stage(after[p])
  }

  lemma HolderHasRow(x: Setting, s: Race, p: nat)
    requires Coherent(x, s) && p in s.calls && InFlight(s.calls[p])
    ensures Row(x, s.tables).Found? && p in x.requests && s.lock == Some(p)
  {
    hide Sound, LogMatches, TablesMatch, AnswersMatch, ExpiredGone, Row;
  }

  /** An enabled step takes its call further; in particular deciding and writing never find their row gone. */
  lemma EnabledAdvances(x: Setting, s: Race, a: Action, p: nat)
    requires Coherent(x, s) && Enabled(x, s, a) && Takes(a, p)
    ensures Advances(s.calls, Next(x, s, a).calls, p)
  {
    hide Coherent, RedeemLocked, DropToken, First;
    if InFlight(s.calls[p]) { HolderHasRow(x, s, p); }
  }

  // ---- No deadlock ----------------------------------------------------------------------------------------------

  /** What the call does next. */
  function NextOf(p: nat, ph: Phase): Action {
    match ph
    case Waiting => Lock(p)
    case Holding => Decide(p)
    case Decided(expired, _) => if expired then Commit(p) else Write(p)
    case Written(_, _, _) => Commit(p)
    case LateDelete => Delete(p)
    case Finished(_) => Tick(0)
  }

  /** While a call is unfinished some call can go on: the lock holder, or any call if nobody holds the lock. */
  lemma NeverStuck(x: Setting, s: Race, p: nat) returns (q: nat)
    requires Coherent(x, s) && p in s.calls && !s.calls[p].Finished?
    ensures q in s.calls && Takes(NextOf(q, s.calls[q]), q) && Enabled(x, s, NextOf(q, s.calls[q]))
  {
    hide Sound, LogMatches, TablesMatch, AnswersMatch, ExpiredGone, HolderMatches;
    q := if s.lock.Some? then s.lock.value else p;
  }

  // ---- How much is left to do ------------------------------------------------------------------------------------

  function Behind(calls: map<nat, Phase>, n: nat): set<nat> {
    set p | p in calls && Stage(calls[p]) <= n
  }

  /** The steps that are left to do, if every call were to take all of them. */
  function Work(calls: map<nat, Phase>): nat {
    |Behind(calls, 0)| + |Behind(calls, 1)| + |Behind(calls, 2)| + |Behind(calls, 3)| + |Behind(calls, 4)|
  }

  lemma BehindFalls(before: map<nat, Phase>, after: map<nat, Phase>, p: nat, n: nat)
    requires Advances(before, after, p)
    ensures |Behind(after, n)| <= |Behind(before, n)|
    ensures n == Stage(before[p]) ==> |Behind(after, n)| < |Behind(before, n)|
  {
    var a, b := Behind(after, n), Behind(before, n);
    if Stage(before[p]) <= n < Stage(after[p]) {
      assert a == b - {p} && p in b;
    } else {
      assert a == b;
    }
  }

  lemma WorkFalls(before: map<nat, Phase>, after: map<nat, Phase>, p: nat)
    requires Advances(before, after, p)
    ensures Work(after) < Work(before)
  {
    hide Behind;
    BehindFalls(before, after, p, 0);
    BehindFalls(before, after, p, 1);
    BehindFalls(before, after, p, 2);
    BehindFalls(before, after, p, 3);
    BehindFalls(before, after, p, 4);
  }

  /** The enabled steps of calls in a sequence of actions. */
  function Moves(x: Setting, s: Race, actions: seq<Action>): nat {
    if actions == [] then 0
    else
      var n := |actions| - 1;
      Moves(x, s, actions[..n])
          + (if Enabled(x, Execute(x, s, actions[..n]), actions[n]) && !actions[n].Tick? then 1 else 0)
  }

  lemma OneMove(x: Setting, s: Race, a: Action)
    requires ValidSetting(x) && Coherent(x, s)
    ensures Coherent(x, Next(x, s, a))
    ensures Work(Next(x, s, a).calls) + (if Enabled(x, s, a) && !a.Tick? then 1 else 0) <= Work(s.calls)
  {
    hide ValidSetting, Coherent, Work, LockStep, DecideStep, WriteStep, CommitStep, DeleteStep, Advances;
    NextCoherent(x, s, a);
    if Enabled(x, s, a) && !a.Tick? {
      var p := Taken(a);
      EnabledAdvances(x, s, a, p);
      WorkFalls(s.calls, Next(x, s, a).calls, p);
    }
  }

  function Taken(a: Action): (p: nat)
    requires !a.Tick?
    ensures Takes(a, p)
  {
    match a
    case Lock(q) => q
    case Decide(q) => q
    case Write(q) => q
    case Commit(q) => q
    case Delete(q) => q
  }

  /** Calls take no more steps than are left to do. */
  lemma {:induction false} MovesAreBounded(x: Setting, s: Race, actions: seq<Action>)
    requires ValidSetting(x) && Coherent(x, s)
    ensures Coherent(x, Execute(x, s, actions))
    ensures Moves(x, s, actions) + Work(Execute(x, s, actions).calls) <= Work(s.calls)
  {
    hide ValidSetting, Coherent, Work, Next, Enabled;
    if actions != [] {
      var n := |actions| - 1;
      MovesAreBounded(x, s, actions[..n]);
      OneMove(x, Execute(x, s, actions[..n]), actions[n]);
    }
  }

  /** At the start there are at most five steps for each call. */
  lemma StartWork(x: Setting, now: int)
    ensures Work(Init(x, now).calls) == 5 * |x.requests|
  {
    var calls := Init(x, now).calls;
    assert forall p :: p in calls ==> Stage(calls[p]) == 0;
    forall n: nat ensures Behind(calls, n) == x.requests.Keys {
    }
    assert |Behind(calls, 0)| == |x.requests.Keys| == |x.requests|;
  }

  ghost predicate AllFinished(calls: map<nat, Phase>) {
    forall p :: p in calls ==> calls[p].Finished?
  }

  /** From every coherent state all calls can finish. */
  lemma {:induction false} AllCanFinish(x: Setting, s: Race) returns (actions: seq<Action>)
    requires ValidSetting(x) && Coherent(x, s)
    ensures AllFinished(Execute(x, s, actions).calls)
    decreases Work(s.calls)
  {
    hide ValidSetting, Coherent, Work, Next;
    if AllFinished(s.calls) {
      actions := [];
    } else {
      var p :| p in s.calls && !s.calls[p].Finished?;
      var q := NeverStuck(x, s, p);
      var a := NextOf(q, s.calls[q]);
      OneMove(x, s, a);
      var more := AllCanFinish(x, Next(x, s, a));
      actions := [a] + more;
      ExecuteFirst(x, s, a, more);
    }
  }

  lemma {:induction false} ExecuteFirst(x: Setting, s: Race, a: Action, more: seq<Action>)
    ensures Execute(x, s, [a] + more) == Execute(x, Next(x, s, a), more)
  {
    hide Next;
    if more == [] {
      assert ([a] + more)[..0] == [] && ([a] + more)[0] == a;
    } else {
      var n := |more| - 1;
      ExecuteFirst(x, s, a, more[..n]);
      assert ([a] + more)[..|[a] + more| - 1] == [a] + more[..n];
    }
  }

  /** No schedule goes on for ever, and none gets stuck: however the calls were interleaved so far, they have
      taken at most five steps each, and can go on until all have their answers. */
  lemma {:induction false} EveryCallFinishes(x: Setting, now: int, actions: seq<Action>) returns (more: seq<Action>)
    requires ValidSetting(x)
    ensures Moves(x, Init(x, now), actions) <= 5 * |x.requests|
    ensures AllFinished(Execute(x, Execute(x, Init(x, now), actions), more).calls)
  {
    hide ValidSetting, Coherent, Work, Init, Execute, Moves, AllFinished;
    InitCoherent(x, now);
    StartWork(x, now);
    MovesAreBounded(x, Init(x, now), actions);
    more := AllCanFinish(x, Execute(x, Init(x, now), actions));
  }
}
