/** fakts/services/rendering.py: which instance fills a requirement, and what composing a client
    means.  `AutoCompose` is the specification that the method in Database.dfy is proved against. */
module Rendering {
  import opened Prelude
  import opened Rows
  import Tokens

  function GroupsOf(t: Tables, user: nat): set<nat> {
    if user in t.groups then t.groups[user] else {}
  }

  function ServiceOf(t: Tables, i: Instance): Option<string> {
    if i.release in t.serviceReleases && t.serviceReleases[i.release].service in t.services
    then Some(t.services[t.serviceReleases[i.release].service].identifier)
    else None
  }

  /** The access filter with Python's precedence: `&` binds tighter than `|`, so an instance
      without an allow-list admits everybody, its deny-lists notwithstanding. */
  predicate Admits(i: Instance, user: nat, groups: set<nat>) {
    || i.allowedUsers == {}
    || (&& user in i.allowedUsers
        && (i.deniedUsers == {} || user !in i.deniedUsers)
        && (i.allowedGroups == {} || i.allowedGroups * groups != {})
        && (i.deniedGroups == {} || i.deniedGroups * groups == {}))
  }

  /** What the filter says, with the tests for empty lists resolved: no allow-list, or a user who is listed,
      is not denied, has an allowed group where groups are listed, and has no denied one. */
  lemma AdmitsExactly(i: Instance, user: nat, groups: set<nat>)
    ensures Admits(i, user, groups) <==>
            i.allowedUsers == {} || (&& user in i.allowedUsers && user !in i.deniedUsers
                                     && (i.allowedGroups == {} || exists g :: g in groups && g in i.allowedGroups)
                                     && forall g :: g in groups ==> g !in i.deniedGroups)
  {
    assert i.allowedGroups * groups != {} <==> exists g :: g in groups && g in i.allowedGroups by {
      if g :| g in groups && g in i.allowedGroups { assert g in i.allowedGroups * groups; }
      if g :| g in i.allowedGroups * groups { assert g in groups && g in i.allowedGroups; }
    }
    if g :| g in groups && g in i.deniedGroups { assert g in i.deniedGroups * groups; }
  }

  function Eligible(t: Tables, service: string, user: nat, composition: Option<nat>): set<nat> {
    set i | i in t.instances
            && ServiceOf(t, t.instances[i]) == Some(service)
            && composition == Some(t.instances[i].composition)
            && Admits(t.instances[i], user, GroupsOf(t, user))
  }

  function FindInstance(t: Tables, req: Requirement, user: nat, composition: Option<nat>): Option<nat> {
    First(Eligible(t, req.service, user, composition))
  }

  /** The keys of one client that have a mapping, with the instance each is mapped to. */
  function MappingsOf(t: Tables, c: nat): (r: map<string, nat>)
    ensures forall k :: k in r <==> (c, k) in t.mappings
    ensures forall k :: k in r ==> r[k] == t.mappings[(c, k)]
  {
    var keys := set p | p in t.mappings && p.0 == c :: p.1;
    assert forall k :: (c, k) in t.mappings ==> (c, k).1 in keys;
    map k | k in keys :: t.mappings[(c, k)]
  }

  datatype Composed = Composed(mapped: map<string, nat>, statuses: map<string, Status>)

  /** What the loop needs besides the requirement list. */
  datatype Scene = Scene(t: Tables, user: nat, composition: Option<nat>, declined: set<string>)

  function Instance(s: Scene, req: Requirement): Option<nat> {
    FindInstance(s.t, req, s.user, s.composition)
  }

  predicate IsDeclined(s: Scene, req: Requirement) {
    req.optional && req.key in s.declined
  }

  /** One turn of the loop: `get_or_create` fails when the key already maps to another instance. */
  function ComposeOne(s: Scene, req: Requirement, acc: Composed): Result<Composed, Error> {
    var instance := Instance(s, req);
    if IsDeclined(s, req) then
      Ok(acc.(statuses := acc.statuses[req.key := Denied]))
    else if instance.Some? && (req.key in acc.mapped ==> acc.mapped[req.key] == instance.value) then
      Ok(Composed(acc.mapped[req.key := instance.value], acc.statuses[req.key := Granted]))
    else if req.optional then
      Ok(acc.(statuses := acc.statuses[req.key := Unavailable]))
    else
      Err(NoInstance(req.service))
  }

  function Compose(s: Scene, reqs: seq<Requirement>): Result<Composed, Error> {
    if reqs == [] then Ok(Composed(map[], map[]))
    else
      var acc :- Compose(s, reqs[..|reqs| - 1]);
      ComposeOne(s, reqs[|reqs| - 1], acc)
  }

  /** Client `c`'s mappings replaced by `mapped`, all others kept. */
  function Remapped(mappings: map<(nat, string), nat>, c: nat, mapped: map<string, nat>): (r: map<(nat, string), nat>)
    ensures forall d, k :: (d, k) in r <==> if d == c then k in mapped else (d, k) in mappings
    ensures forall d, k :: (d, k) in r ==> r[(d, k)] == if d == c then mapped[k] else mappings[(d, k)]
  {
    var own := set k | k in mapped :: (c, k);
    map p | p in mappings.Keys + own && (p.0 == c ==> p.1 in mapped) :: if p.0 == c then mapped[p.1] else mappings[p]
  }

  function AutoCompose(w: Crypto, t: Tables, c: nat, reqs: seq<Requirement>, user: nat,
                       declined: set<string>): (r: Result<Tables, Error>)
    requires c in t.clients
    ensures r.Ok? ==> c in r.value.clients && OnlyRegistry(t, r.value)
  {
    if reqs == [] then Ok(t)
    else
      var composed :- Compose(Scene(t, user, t.clients[c].composition, declined), reqs);
      var row := t.clients[c].(requirementsHash := Tokens.HashRequirements(w, reqs), statuses := composed.statuses);
      Ok(t.(mappings := Remapped(t.mappings, c, composed.mapped), clients := t.clients[c := row]))
  }

  // ---- The meaning of one composition -------------------------------------------------------

  predicate DistinctKeys(reqs: seq<Requirement>) {
    forall i, j :: 0 <= i < j < |reqs| ==> reqs[i].key != reqs[j].key
  }

  function KeysOf(reqs: seq<Requirement>): set<string> {
    set i | 0 <= i < |reqs| :: reqs[i].key
  }

  /** The instance a requirement asks to be mapped to: none if declined or if nothing is eligible. */
  function Wanted(s: Scene, req: Requirement): Option<nat> {
    if IsDeclined(s, req) then None else Instance(s, req)
  }

  predicate AsksFor(s: Scene, reqs: seq<Requirement>, i: int, key: string) {
    0 <= i < |reqs| && reqs[i].key == key && Wanted(s, reqs[i]).Some?
  }

  predicate FirstToAsk(s: Scene, reqs: seq<Requirement>, i: int, key: string) {
    AsksFor(s, reqs, i, key) && forall j :: 0 <= j < i ==> !AsksFor(s, reqs, j, key)
  }

  predicate LastWithKey(reqs: seq<Requirement>, i: int, key: string) {
    0 <= i < |reqs| && reqs[i].key == key && forall j :: i < j < |reqs| ==> reqs[j].key != key
  }

  function StatusFor(s: Scene, req: Requirement, mapped: map<string, nat>): Status {
    if IsDeclined(s, req) then Denied
    else if Wanted(s, req).Some? && req.key in mapped && mapped[req.key] == Wanted(s, req).value then Granted
    else Unavailable
  }

  /** A key is mapped as its first satisfiable requirement asks, and reported as its last one fares. */
  ghost predicate Meaning(s: Scene, reqs: seq<Requirement>, c: Composed) {
    && c.statuses.Keys == KeysOf(reqs)
    && (forall k :: k in c.mapped ==> exists i :: FirstToAsk(s, reqs, i, k))
    && (forall i, k :: FirstToAsk(s, reqs, i, k) ==> k in c.mapped && c.mapped[k] == Wanted(s, reqs[i]).value)
    && (forall i, k :: LastWithKey(reqs, i, k) ==> k in c.statuses && c.statuses[k] == StatusFor(s, reqs[i], c.mapped))
  }

  lemma {:induction false} ComposeMeaning(s: Scene, reqs: seq<Requirement>)
    requires Compose(s, reqs).Ok?
    ensures Meaning(s, reqs, Compose(s, reqs).value)
  {
    var c := Compose(s, reqs).value;
    if reqs != [] {
      var n := |reqs| - 1;
      var before := reqs[..n];
      ComposeMeaning(s, before);
      var b := Compose(s, before).value;
      MeaningStep(s, before, reqs[n], b);
      assert reqs == before + [reqs[n]];
    }
  }

  lemma KeysStep(before: seq<Requirement>, req: Requirement)
    ensures KeysOf(before + [req]) == KeysOf(before) + {req.key}
  {
    var reqs := before + [req];
    assert forall i :: 0 <= i < |before| ==> reqs[i] == before[i];
    assert reqs[|before|] == req;
    forall k | k in KeysOf(before) ensures k in KeysOf(reqs) {
      var i :| 0 <= i < |before| && before[i].key == k;
      assert reqs[i].key == k;
    }
  }

  lemma AsksStep(s: Scene, before: seq<Requirement>, req: Requirement)
    ensures forall i, k :: i < |before| ==> AsksFor(s, before + [req], i, k) == AsksFor(s, before, i, k)
    ensures forall i, k :: i < |before| ==> FirstToAsk(s, before + [req], i, k) == FirstToAsk(s, before, i, k)
  {
    var reqs := before + [req];
    assert forall i :: 0 <= i < |before| ==> reqs[i] == before[i];
  }

  lemma MeaningStep(s: Scene, before: seq<Requirement>, req: Requirement, b: Composed)
    requires Meaning(s, before, b)
    requires ComposeOne(s, req, b).Ok?
    ensures Meaning(s, before + [req], ComposeOne(s, req, b).value)
  {
    hide FirstToAsk, LastWithKey, StatusFor, KeysOf, Wanted;
    KeysStep(before, req);
    MappedStep(s, before, req, b);
    AskedStep(s, before, req, b);
    StatusStep(s, before, req, b);
  }

  lemma MappedStep(s: Scene, before: seq<Requirement>, req: Requirement, b: Composed)
    requires Meaning(s, before, b) && ComposeOne(s, req, b).Ok?
    ensures forall k :: k in ComposeOne(s, req, b).value.mapped ==> exists i :: FirstToAsk(s, before + [req], i, k)
  {
    var reqs, n := before + [req], |before|;
    var c := ComposeOne(s, req, b).value;
    AsksStep(s, before, req);
    assert reqs[n] == req;
    forall k | k in c.mapped ensures exists i :: FirstToAsk(s, reqs, i, k) {
      if k in b.mapped {
        var i :| FirstToAsk(s, before, i, k);
        assert FirstToAsk(s, reqs, i, k);
      } else {
        NobodyAsks(s, before, b, k);
        assert FirstToAsk(s, reqs, n, k);
      }
    }
  }

  lemma AskedStep(s: Scene, before: seq<Requirement>, req: Requirement, b: Composed)
    requires Meaning(s, before, b) && ComposeOne(s, req, b).Ok?
    ensures var reqs, c := before + [req], ComposeOne(s, req, b).value;
            forall i, k :: FirstToAsk(s, reqs, i, k) ==> k in c.mapped && c.mapped[k] == Wanted(s, reqs[i]).value
  {
    var reqs, n := before + [req], |before|;
    var c := ComposeOne(s, req, b).value;
    AsksStep(s, before, req);
    forall i, k | FirstToAsk(s, reqs, i, k) ensures k in c.mapped && c.mapped[k] == Wanted(s, reqs[i]).value {
      if i < n {
        assert FirstToAsk(s, before, i, k);
      }
    }
  }

  lemma StatusStep(s: Scene, before: seq<Requirement>, req: Requirement, b: Composed)
    requires Meaning(s, before, b)
    requires ComposeOne(s, req, b).Ok?
    ensures var reqs, c := before + [req], ComposeOne(s, req, b).value;
            forall i, k :: LastWithKey(reqs, i, k) ==>
              k in c.statuses && c.statuses[k] == StatusFor(s, reqs[i], c.mapped)
  {
    var reqs, n := before + [req], |before|;
    var c := ComposeOne(s, req, b).value;
    forall i, k | LastWithKey(reqs, i, k)
      ensures k in c.statuses && c.statuses[k] == StatusFor(s, reqs[i], c.mapped)
    {
      if i < n {
        assert reqs[n].key != k;
        assert reqs[i] == before[i];
        assert forall j :: i < j < n ==> before[j] == reqs[j];
        assert LastWithKey(before, i, k);
      }
    }
  }

  lemma NobodyAsks(s: Scene, reqs: seq<Requirement>, c: Composed, key: string)
    requires Meaning(s, reqs, c) && key !in c.mapped
    ensures forall i :: !AsksFor(s, reqs, i, key)
  {
    if i :| AsksFor(s, reqs, i, key) {
      var first := EarliestAsk(s, reqs, i, key);
    }
  }

  lemma {:induction false} EarliestAsk(s: Scene, reqs: seq<Requirement>, i: int, key: string) returns (first: int)
    requires AsksFor(s, reqs, i, key)
    ensures FirstToAsk(s, reqs, first, key)
    decreases i
  {
    if j :| 0 <= j < i && AsksFor(s, reqs, j, key) {
      first := EarliestAsk(s, reqs, j, key);
    } else {
      first := i;
    }
  }

  // ---- Distinct keys ------------------------------------------------------------------------

  predicate Agrees(c: Composed) {
    c.mapped.Keys == set k | k in c.statuses && c.statuses[k] == Granted
  }

  /** How one requirement fares when no key is listed twice. */
  ghost predicate Fares(s: Scene, r: Requirement, c: Composed) {
    && r.key in c.statuses
    && (r.key in c.mapped <==> c.statuses[r.key] == Granted)
    && (IsDeclined(s, r) ==> c.statuses[r.key] == Denied)
    && (!IsDeclined(s, r) && Instance(s, r).Some? ==> r.key in c.mapped && c.mapped[r.key] == Instance(s, r).value)
    && (!IsDeclined(s, r) && Instance(s, r).None? ==> r.optional && c.statuses[r.key] == Unavailable)
  }

  lemma DistinctFares(s: Scene, reqs: seq<Requirement>, i: int)
    requires DistinctKeys(reqs) && Compose(s, reqs).Ok? && 0 <= i < |reqs|
    ensures Fares(s, reqs[i], Compose(s, reqs).value)
  {
    var r, c := reqs[i], Compose(s, reqs).value;
    ComposeMeaning(s, reqs);
    assert LastWithKey(reqs, i, r.key);
    if Wanted(s, r).Some? {
      assert FirstToAsk(s, reqs, i, r.key);
    } else if r.key in c.mapped {
      var j :| FirstToAsk(s, reqs, j, r.key);
      assert j == i;
    }
    if !r.optional && Instance(s, r).None? {
      RequiredMustExist(s, reqs, i);
    }
  }

  /** The whole outcome when no key is listed twice: a function of the requirements, the declined
      keys, the user and the instance table.  A key is mapped exactly when it is granted, and then
      to the lowest eligible instance. */
  lemma {:induction false} ComposeDistinct(s: Scene, reqs: seq<Requirement>)
    requires DistinctKeys(reqs) && Compose(s, reqs).Ok?
    ensures Compose(s, reqs).value.statuses.Keys == KeysOf(reqs)
    ensures Agrees(Compose(s, reqs).value)
    ensures forall r :: r in reqs ==> Fares(s, r, Compose(s, reqs).value)
  {
    var c := Compose(s, reqs).value;
    ComposeMeaning(s, reqs);
    forall r | r in reqs ensures Fares(s, r, c) {
      var i :| 0 <= i < |reqs| && reqs[i] == r;
      DistinctFares(s, reqs, i);
    }
    forall k ensures k in c.mapped <==> k in c.statuses && c.statuses[k] == Granted {
      if k in c.mapped {
        var i :| FirstToAsk(s, reqs, i, k);
        assert reqs[i] in reqs;
      }
      if k in c.statuses {
        var i :| 0 <= i < |reqs| && reqs[i].key == k;
        assert reqs[i] in reqs;
      }
    }
  }

  lemma {:induction false} RequiredMustExist(s: Scene, reqs: seq<Requirement>, i: nat)
    requires i < |reqs| && !reqs[i].optional && Instance(s, reqs[i]).None?
    ensures Compose(s, reqs).Err?
  {
    var n := |reqs| - 1;
    if i < n {
      RequiredMustExist(s, reqs[..n], i);
    }
  }

  /** Composing fails exactly when some required key has no eligible instance. */
  lemma {:induction false} ComposeFails(s: Scene, reqs: seq<Requirement>)
    requires DistinctKeys(reqs)
    ensures Compose(s, reqs).Err? <==> exists r :: r in reqs && !r.optional && Instance(s, r).None?
  {
    if r :| r in reqs && !r.optional && Instance(s, r).None? {
      var i :| 0 <= i < |reqs| && reqs[i] == r;
      RequiredMustExist(s, reqs, i);
    } else if reqs != [] {
      var n := |reqs| - 1;
      var before := reqs[..n];
      assert forall r :: r in before ==> r in reqs;
      ComposeFails(s, before);
      ComposeMeaning(s, before);
      var b := Compose(s, before).value;
      assert forall j :: 0 <= j < n ==> before[j] == reqs[j];
      assert reqs[n].key !in b.mapped;
    }
  }

  // ---- Repeated keys: when statuses and mappings still agree ----------------------------------

  /** Every key that some requirement gets mapped is listed last by a requirement that asks for
      the same instance as the first one did. */
  ghost predicate LastAsksLikeFirst(s: Scene, reqs: seq<Requirement>) {
    forall i, j, k :: FirstToAsk(s, reqs, i, k) && LastWithKey(reqs, j, k) ==> Wanted(s, reqs[j]) == Wanted(s, reqs[i])
  }

  lemma {:induction false} LastListed(reqs: seq<Requirement>, i: int) returns (last: int)
    requires 0 <= i < |reqs|
    ensures LastWithKey(reqs, last, reqs[i].key)
    decreases |reqs| - i
  {
    if j :| i < j < |reqs| && reqs[j].key == reqs[i].key {
      last := LastListed(reqs, j);
    } else {
      last := i;
    }
  }

  lemma AgreeingEnds(s: Scene, reqs: seq<Requirement>, i: int, j: int, k: string)
    requires Compose(s, reqs).Ok?
    requires FirstToAsk(s, reqs, i, k) && LastWithKey(reqs, j, k)
    ensures var c := Compose(s, reqs).value;
            && k in c.mapped && k in c.statuses
            && (c.statuses[k] == Granted <==> Wanted(s, reqs[j]) == Wanted(s, reqs[i]))
  {
    ComposeMeaning(s, reqs);
  }

  lemma UnmappedIsNotGranted(s: Scene, reqs: seq<Requirement>, k: string)
    requires Compose(s, reqs).Ok?
    ensures var c := Compose(s, reqs).value; k in c.statuses && k !in c.mapped ==> c.statuses[k] != Granted
  {
    ComposeMeaning(s, reqs);
    var c := Compose(s, reqs).value;
    if k in c.statuses && k !in c.mapped {
      var i :| 0 <= i < |reqs| && reqs[i].key == k;
      var j := LastListed(reqs, i);
      assert LastWithKey(reqs, j, k);
    }
  }

  /** With repeated keys allowed, this is exactly when reported grants and mappings agree. */
  lemma {:induction false} AgreementExactly(s: Scene, reqs: seq<Requirement>)
    requires Compose(s, reqs).Ok?
    ensures Agrees(Compose(s, reqs).value) <==> LastAsksLikeFirst(s, reqs)
  {
    var c := Compose(s, reqs).value;
    ComposeMeaning(s, reqs);
    if LastAsksLikeFirst(s, reqs) {
      forall k ensures k in c.mapped <==> k in c.statuses && c.statuses[k] == Granted {
        UnmappedIsNotGranted(s, reqs, k);
        if k in c.mapped {
          var i :| FirstToAsk(s, reqs, i, k);
          var j := LastListed(reqs, i);
          AgreeingEnds(s, reqs, i, j, k);
        }
      }
    }
    if Agrees(c) {
      forall i, j, k | FirstToAsk(s, reqs, i, k) && LastWithKey(reqs, j, k)
        ensures Wanted(s, reqs[j]) == Wanted(s, reqs[i])
      {
        AgreeingEnds(s, reqs, i, j, k);
        assert k in c.mapped.Keys;
      }
    }
  }

  // ---- Composing again -----------------------------------------------------------------------

  /** Composing only looks at instances, their services and the user's groups. */
  predicate SameInstances(t: Tables, u: Tables) {
    t.instances == u.instances && t.serviceReleases == u.serviceReleases && t.services == u.services
        && t.groups == u.groups
  }

  lemma {:induction false} ComposeLooksAtInstances(s: Scene, u: Tables, reqs: seq<Requirement>)
    requires SameInstances(s.t, u)
    ensures Compose(s.(t := u), reqs) == Compose(s, reqs)
  {
    if reqs != [] {
      var n := |reqs| - 1;
      ComposeLooksAtInstances(s, u, reqs[..n]);
      assert Eligible(u, reqs[n].service, s.user, s.composition)
             == Eligible(s.t, reqs[n].service, s.user, s.composition);
    }
  }

  lemma RemappedViews(t: Tables, t': Tables, c: nat, mapped: map<string, nat>, d: nat)
    requires t'.mappings == Remapped(t.mappings, c, mapped)
    ensures MappingsOf(t', d) == if d == c then mapped else MappingsOf(t, d)
  {
  }

  /** What a successful non-empty composition leaves: the composed outcome for this client, every
      other client as it was. */
  lemma {:induction false} AutoComposeReplaces(w: Crypto, t: Tables, c: nat, reqs: seq<Requirement>, user: nat,
                                               declined: set<string>)
    requires c in t.clients && reqs != [] && AutoCompose(w, t, c, reqs, user, declined).Ok?
    ensures Compose(Scene(t, user, t.clients[c].composition, declined), reqs).Ok?
    ensures AutoCompose(w, t, c, reqs, user, declined).value.clients.Keys == t.clients.Keys
    ensures var t', s := AutoCompose(w, t, c, reqs, user, declined).value,
            Scene(t, user, t.clients[c].composition, declined);
            && MappingsOf(t', c) == Compose(s, reqs).value.mapped
            && t'.clients[c].statuses == Compose(s, reqs).value.statuses
            && t'.clients[c].composition == t.clients[c].composition
            && SameInstances(t, t')
    ensures var t' := AutoCompose(w, t, c, reqs, user, declined).value;
            forall d :: d in t.clients && d != c ==>
              t'.clients[d] == t.clients[d] && MappingsOf(t', d) == MappingsOf(t, d)
  {
    var composed := Compose(Scene(t, user, t.clients[c].composition, declined), reqs).value;
    var t' := AutoCompose(w, t, c, reqs, user, declined).value;
    RemappedViews(t, t', c, composed.mapped, c);
    forall d | d in t.clients && d != c ensures MappingsOf(t', d) == MappingsOf(t, d) {
      RemappedViews(t, t', c, composed.mapped, d);
    }
  }

  datatype Attempt = Attempt(requirements: seq<Requirement>, user: nat, declined: set<string>)

  /** A run of composition attempts for one client; a failed attempt changes nothing. */
  function Recompose(w: Crypto, t: Tables, c: nat, attempts: seq<Attempt>): (r: Tables)
    requires c in t.clients
    ensures c in r.clients && r.clients[c].composition == t.clients[c].composition && SameInstances(t, r)
  {
    if attempts == [] then t
    else
      var before := Recompose(w, t, c, attempts[..|attempts| - 1]);
      var a := attempts[|attempts| - 1];
      match AutoCompose(w, before, c, a.requirements, a.user, a.declined)
      case Ok(after) => after
      case Err(_) => before
  }

  /** Whatever was composed before, and however often, the last attempt decides alone: if it can be
      composed against the original instances, the outcome is exactly that composition. */
  lemma {:induction false} RecomposeForgets(w: Crypto, t: Tables, c: nat, earlier: seq<Attempt>, last: Attempt)
    requires c in t.clients && last.requirements != []
    ensures var after := Recompose(w, t, c, earlier + [last]);
            var s := Scene(t, last.user, t.clients[c].composition, last.declined);
            match Compose(s, last.requirements)
            case Ok(outcome) => MappingsOf(after, c) == outcome.mapped && after.clients[c].statuses == outcome.statuses
            case Err(_) => after == Recompose(w, t, c, earlier)
  {
    var attempts := earlier + [last];
    assert attempts[..|attempts| - 1] == earlier;
    var before := Recompose(w, t, c, earlier);
    var s := Scene(t, last.user, t.clients[c].composition, last.declined);
    ComposeLooksAtInstances(s, before, last.requirements);
    if Compose(s, last.requirements).Ok? {
      AutoComposeReplaces(w, before, c, last.requirements, last.user, last.declined);
    }
  }
}
