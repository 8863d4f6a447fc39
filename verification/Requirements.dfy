/** What a composed requirement gets, said of the rows themselves: which instance suits it, which of those it is
    mapped to, and how it is reported. */
module Requirements {
  import opened Prelude
  import opened Rows
  import opened Rendering
  import Tokens

  predicate IsMember(t: Tables, user: nat, group: nat) {
    user in t.groups && group in t.groups[user]
  }

  /** No allow-list; or listed, not denied, with an allowed group where groups are listed, and with no denied one. */
  ghost predicate LetsIn(t: Tables, row: Instance, user: nat) {
    || row.allowedUsers == {}
    || (&& user in row.allowedUsers && user !in row.deniedUsers
        && (row.allowedGroups == {} || exists g :: IsMember(t, user, g) && g in row.allowedGroups)
        && forall g :: IsMember(t, user, g) ==> g !in row.deniedGroups)
  }

  /** The instance is one of the composition, its release is one of the service, and it lets the user in. */
  ghost predicate Suits(t: Tables, i: nat, service: string, user: nat, composition: Option<nat>) {
    && i in t.instances && composition.Some? && t.instances[i].composition == composition.value
    && t.instances[i].release in t.serviceReleases
    && t.serviceReleases[t.instances[i].release].service in t.services
    && t.services[t.serviceReleases[t.instances[i].release].service].identifier == service
    && LetsIn(t, t.instances[i], user)
  }

  ghost predicate Lowest(t: Tables, i: nat, service: string, user: nat, composition: Option<nat>) {
    Suits(t, i, service, user, composition) && forall j :: Suits(t, j, service, user, composition) ==> i <= j
  }

  lemma EligibleSuits(t: Tables, i: nat, service: string, user: nat, composition: Option<nat>)
    ensures i in Eligible(t, service, user, composition) <==> Suits(t, i, service, user, composition)
  {
    if i in t.instances {
      AdmitsExactly(t.instances[i], user, GroupsOf(t, user));
      assert forall g :: g in GroupsOf(t, user) <==> IsMember(t, user, g);
    }
  }

  /** A requirement finds the lowest instance that suits it, and none exactly when none does. */
  lemma FindsLowest(t: Tables, req: Requirement, user: nat, composition: Option<nat>)
    ensures forall i: nat ::
              FindInstance(t, req, user, composition) == Some(i) <==> Lowest(t, i, req.service, user, composition)
    ensures FindInstance(t, req, user, composition).None? <==>
              forall i: nat :: !Suits(t, i, req.service, user, composition)
  {
    hide Suits;
    forall i: nat ensures i in Eligible(t, req.service, user, composition)
      <==> Suits(t, i, req.service, user, composition) {
      EligibleSuits(t, i, req.service, user, composition);
    }
    var found := FindInstance(t, req, user, composition);
    forall i: nat ensures found == Some(i) <==> Lowest(t, i, req.service, user, composition) {
      if Lowest(t, i, req.service, user, composition) { assert i in Eligible(t, req.service, user, composition); }
    }
  }

  // ---- A whole list -----------------------------------------------------------------------------------------------

  /** Who composes, for which composition, and what is declined. */
  datatype Party = Party(user: nat, composition: Option<nat>, declined: set<string>)

  ghost predicate Served(t: Tables, p: Party, r: Requirement, i: nat) {
    !(r.optional && r.key in p.declined) && Lowest(t, i, r.service, p.user, p.composition)
  }

  /** The `n`-th requirement is the first with its key that is not declined and that some instance suits. */
  ghost predicate Decides(t: Tables, p: Party, reqs: seq<Requirement>, n: int, i: nat) {
    && 0 <= n < |reqs| && Served(t, p, reqs[n], i)
    && forall m, j :: 0 <= m < n && reqs[m].key == reqs[n].key ==> !Served(t, p, reqs[m], j)
  }

  /** The `n`-th requirement is the last with its key. */
  predicate IsLast(reqs: seq<Requirement>, n: int) {
    0 <= n < |reqs| && forall m :: n < m < |reqs| ==> reqs[m].key != reqs[n].key
  }

  /** How a requirement is reported, given what its key is mapped to. */
  ghost predicate Reported(t: Tables, p: Party, r: Requirement, mapped: map<string, nat>, status: Status) {
    if r.optional && r.key in p.declined then status == Status.Denied
    else if r.key in mapped && Lowest(t, mapped[r.key], r.service, p.user, p.composition) then status == Status.Granted
    else status == Status.Unavailable
  }

  /** Each key is mapped as the first requirement that can be served asks, and reported as its last requirement
      fares. */
  ghost predicate ComposedAs(t: Tables, p: Party, reqs: seq<Requirement>, mapped: map<string, nat>,
                             statuses: map<string, Status>) {
    && (forall k :: k in statuses ==> exists n :: 0 <= n < |reqs| && reqs[n].key == k)
    && (forall n :: 0 <= n < |reqs| ==> reqs[n].key in statuses)
    && (forall k :: k in mapped ==> exists n :: Decides(t, p, reqs, n, mapped[k]) && reqs[n].key == k)
    && (forall n, i: nat :: Decides(t, p, reqs, n, i) ==> reqs[n].key in mapped && mapped[reqs[n].key] == i)
    && (forall n :: IsLast(reqs, n) ==>
        reqs[n].key in statuses && Reported(t, p, reqs[n], mapped, statuses[reqs[n].key]))
  }

  function SceneOf(t: Tables, p: Party): Scene { Scene(t, p.user, p.composition, p.declined) }

  lemma WantedIsServed(t: Tables, p: Party, r: Requirement)
    ensures forall i: nat :: Wanted(SceneOf(t, p), r) == Some(i) <==> Served(t, p, r, i)
    ensures Wanted(SceneOf(t, p), r).None? <==> forall i: nat :: !Served(t, p, r, i)
  {
    hide Lowest, FindInstance;
    FindsLowest(t, r, p.user, p.composition);
  }

  lemma FirstDecides(t: Tables, p: Party, reqs: seq<Requirement>, n: int, k: string, i: nat)
    ensures 0 <= n < |reqs| && FirstToAsk(SceneOf(t, p), reqs, n, k) && Wanted(SceneOf(t, p), reqs[n]) == Some(i)
            <==> Decides(t, p, reqs, n, i) && reqs[n].key == k
  {
    hide Served, Wanted;
    var s := SceneOf(t, p);
    forall m | 0 <= m < |reqs|
      ensures forall j: nat :: Wanted(s, reqs[m]) == Some(j) <==> Served(t, p, reqs[m], j)
      ensures Wanted(s, reqs[m]).None? <==> forall j: nat :: !Served(t, p, reqs[m], j)
      ensures Wanted(s, reqs[m]).Some? ==> Served(t, p, reqs[m], Wanted(s, reqs[m]).value)
    {
      WantedIsServed(t, p, reqs[m]);
    }
    if 0 <= n < |reqs| && FirstToAsk(s, reqs, n, k) && Wanted(s, reqs[n]) == Some(i) {
      forall m, j: nat | 0 <= m < n && reqs[m].key == reqs[n].key ensures !Served(t, p, reqs[m], j) {
        assert !AsksFor(s, reqs, m, k);
      }
    }
    if 0 <= n < |reqs| && Decides(t, p, reqs, n, i) && reqs[n].key == k {
      assert Wanted(s, reqs[n]) == Some(i);
      forall m | 0 <= m < n ensures !AsksFor(s, reqs, m, k) {
      }
    }
  }

  lemma ReportedAs(t: Tables, p: Party, r: Requirement, mapped: map<string, nat>)
    ensures Reported(t, p, r, mapped, StatusFor(SceneOf(t, p), r, mapped))
  {
    hide Lowest, FindInstance;
    WantedIsServed(t, p, r);
    FindsLowest(t, r, p.user, p.composition);
  }

  /** What the loop composes is what the rows say. */
  lemma ComposesAs(t: Tables, p: Party, reqs: seq<Requirement>)
    requires Compose(SceneOf(t, p), reqs).Ok?
    ensures var c := Compose(SceneOf(t, p), reqs).value; ComposedAs(t, p, reqs, c.mapped, c.statuses)
  {
    hide Compose, Decides, FirstToAsk, Wanted, Reported, StatusFor;
    var s := SceneOf(t, p);
    var c := Compose(s, reqs).value;
    ComposeMeaning(s, reqs);
    KeysListed(reqs);
    forall n, i: nat ensures Decides(t, p, reqs, n, i) ==> 0 <= n < |reqs| {
      OnlyListed(t, p, reqs, n, i);
    }
    forall k | k in c.mapped
      ensures exists n :: 0 <= n < |reqs| && Decides(t, p, reqs, n, c.mapped[k]) && reqs[n].key == k
    {
      var n :| FirstToAsk(s, reqs, n, k);
      AskedIs(s, reqs, n, k);
      FirstDecides(t, p, reqs, n, k, c.mapped[k]);
    }
    forall n, i: nat | 0 <= n < |reqs| && Decides(t, p, reqs, n, i)
      ensures reqs[n].key in c.mapped && c.mapped[reqs[n].key] == i
    {
      FirstDecides(t, p, reqs, n, reqs[n].key, i);
    }
    forall n | IsLast(reqs, n)
      ensures reqs[n].key in c.statuses && Reported(t, p, reqs[n], c.mapped, c.statuses[reqs[n].key])
    {
      assert LastWithKey(reqs, n, reqs[n].key);
      ReportedAs(t, p, reqs[n], c.mapped);
    }
  }

  lemma OnlyListed(t: Tables, p: Party, reqs: seq<Requirement>, n: int, i: nat)
    ensures Decides(t, p, reqs, n, i) ==> 0 <= n < |reqs|
  {
    hide Served;
  }

  lemma KeysListed(reqs: seq<Requirement>)
    ensures forall k :: k in KeysOf(reqs) <==> exists n :: 0 <= n < |reqs| && reqs[n].key == k
    ensures forall n :: 0 <= n < |reqs| ==> reqs[n].key in KeysOf(reqs)
  {
  }

  lemma AskedIs(s: Scene, reqs: seq<Requirement>, n: int, k: string)
    requires FirstToAsk(s, reqs, n, k)
    ensures 0 <= n < |reqs| && reqs[n].key == k && Wanted(s, reqs[n]).Some?
  {
  }

  /** How one requirement fares where no key is listed twice. */
  ghost predicate FaresAs(t: Tables, p: Party, r: Requirement, mapped: map<string, nat>,
                          statuses: map<string, Status>) {
    && r.key in statuses
    && if r.optional && r.key in p.declined then r.key !in mapped && statuses[r.key] == Status.Denied
       else if exists i :: Suits(t, i, r.service, p.user, p.composition)
       then && r.key in mapped && Lowest(t, mapped[r.key], r.service, p.user, p.composition)
            && statuses[r.key] == Status.Granted
       else r.optional && r.key !in mapped && statuses[r.key] == Status.Unavailable
  }

  lemma DistinctFaresAs(t: Tables, p: Party, reqs: seq<Requirement>)
    requires Compose(SceneOf(t, p), reqs).Ok? && DistinctKeys(reqs)
    ensures var c := Compose(SceneOf(t, p), reqs).value; forall r :: r in reqs ==>
            FaresAs(t, p, r, c.mapped, c.statuses)
  {
    hide Compose, Suits, FindInstance, Lowest;
    var s := SceneOf(t, p);
    var c := Compose(s, reqs).value;
    ComposeDistinct(s, reqs);
    forall r | r in reqs ensures FaresAs(t, p, r, c.mapped, c.statuses) {
      assert Fares(s, r, c);
      FindsLowest(t, r, p.user, p.composition);
    }
  }

  /** Composing fails exactly when nothing suits some required key. */
  lemma {:induction false} FailsAs(t: Tables, p: Party, reqs: seq<Requirement>)
    requires DistinctKeys(reqs)
    ensures Compose(SceneOf(t, p), reqs).Err? <==>
              exists r :: r in reqs && !r.optional && forall i: nat :: !Suits(t, i, r.service, p.user, p.composition)
  {
    hide Compose, Suits, FindInstance, Lowest, DistinctKeys;
    var s := SceneOf(t, p);
    ComposeFails(s, reqs);
    forall r: Requirement ensures Rendering.Instance(s, r).None?
      <==> forall i: nat :: !Suits(t, i, r.service, p.user, p.composition) {
      FindsLowest(t, r, p.user, p.composition);
    }
  }

  /** A required entry is met when the instance its key is mapped to, which an entry no later than it decides,
      is its own lowest. */
  ghost predicate Met(t: Tables, p: Party, reqs: seq<Requirement>, n: int) {
    && 0 <= n < |reqs|
    && (reqs[n].optional || exists m, i: nat ::
        && 0 <= m <= n && Decides(t, p, reqs, m, i) && reqs[m].key == reqs[n].key
                                                && Lowest(t, i, reqs[n].service, p.user, p.composition))
  }

  /** The same in terms of what is looked up. */
  ghost predicate Obtains(s: Scene, reqs: seq<Requirement>, n: int) {
    && 0 <= n < |reqs|
    && (reqs[n].optional || exists m :: && 0 <= m <= n && FirstToAsk(s, reqs, m, reqs[n].key)
                                        && Wanted(s, reqs[m]) == Rendering.Instance(s, reqs[n]))
  }

  lemma MetIsObtained(t: Tables, p: Party, reqs: seq<Requirement>, n: int)
    ensures Met(t, p, reqs, n) <==> Obtains(SceneOf(t, p), reqs, n)
  {
    hide Decides, FirstToAsk, Wanted, FindInstance, Lowest;
    var s := SceneOf(t, p);
    if 0 <= n < |reqs| && !reqs[n].optional {
      FindsLowest(t, reqs[n], p.user, p.composition);
      if m, i: nat :| && 0 <= m <= n && Decides(t, p, reqs, m, i) && reqs[m].key == reqs[n].key
                      && Lowest(t, i, reqs[n].service, p.user, p.composition) {
        FirstDecides(t, p, reqs, m, reqs[n].key, i);
        assert FirstToAsk(s, reqs, m, reqs[n].key) && Wanted(s, reqs[m]) == Rendering.Instance(s, reqs[n]);
      }
      if m :| && 0 <= m <= n && FirstToAsk(s, reqs, m, reqs[n].key)
              && Wanted(s, reqs[m]) == Rendering.Instance(s, reqs[n]) {
        AskedIs(s, reqs, m, reqs[n].key);
        var i := Wanted(s, reqs[m]).value;
        FirstDecides(t, p, reqs, m, reqs[n].key, i);
        assert Decides(t, p, reqs, m, i) && Lowest(t, i, reqs[n].service, p.user, p.composition);
      }
    }
  }

  lemma ObtainsStays(s: Scene, before: seq<Requirement>, req: Requirement, n: int)
    requires 0 <= n < |before|
    ensures Obtains(s, before + [req], n) <==> Obtains(s, before, n)
  {
    hide FirstToAsk, Wanted, Compose;
    var reqs := before + [req];
    AsksStep(s, before, req);
    assert reqs[n] == before[n];
    forall m | m <= n && FirstToAsk(s, reqs, m, reqs[n].key) ensures 0 <= m && reqs[m] == before[m] {
      AskedIs(s, reqs, m, reqs[n].key);
    }
    forall m | m <= n && FirstToAsk(s, before, m, reqs[n].key) ensures 0 <= m && reqs[m] == before[m] {
      AskedIs(s, before, m, reqs[n].key);
    }
  }

  lemma LastObtains(s: Scene, before: seq<Requirement>, req: Requirement)
    requires Compose(s, before).Ok?
    ensures ComposeOne(s, req, Compose(s, before).value).Ok? <==> Obtains(s, before + [req], |before|)
  {
    hide Compose, Rendering.FindInstance;
    var reqs, n, b := before + [req], |before|, Compose(s, before).value;
    ComposeMeaning(s, before);
    AsksStep(s, before, req);
    assert reqs[n] == req && forall m :: 0 <= m < n ==> reqs[m] == before[m];
    if req.key in b.mapped {
      var m :| FirstToAsk(s, before, m, req.key);
      assert FirstToAsk(s, reqs, m, req.key) && b.mapped[req.key] == Wanted(s, reqs[m]).value;
      assert forall j :: FirstToAsk(s, reqs, j, req.key) ==> j == m;
    } else {
      NobodyAsks(s, before, b, req.key);
      assert forall j :: 0 <= j < n ==> !AsksFor(s, reqs, j, req.key);
    }
  }

  lemma {:induction false} ComposeObtains(s: Scene, reqs: seq<Requirement>)
    ensures Compose(s, reqs).Ok? <==> forall n :: 0 <= n < |reqs| ==> Obtains(s, reqs, n)
  {
    hide Obtains, ComposeOne;
    if reqs != [] {
      var before, n := reqs[..|reqs| - 1], |reqs| - 1;
      assert reqs == before + [reqs[n]];
      ComposeObtains(s, before);
      if Compose(s, before).Ok? { LastObtains(s, before, reqs[n]); }
      forall k | 0 <= k < n ensures Obtains(s, reqs, k) <==> Obtains(s, before, k) {
        ObtainsStays(s, before, reqs[n], k);
      }
    }
  }

  /** A list composes exactly when every entry of it is met. */
  lemma ComposesExactly(t: Tables, p: Party, reqs: seq<Requirement>)
    ensures Compose(SceneOf(t, p), reqs).Ok? <==> forall n :: 0 <= n < |reqs| ==> Met(t, p, reqs, n)
  {
    hide Compose, Met, Obtains;
    ComposeObtains(SceneOf(t, p), reqs);
    forall n | 0 <= n < |reqs| ensures Met(t, p, reqs, n) <==> Obtains(SceneOf(t, p), reqs, n) {
      MetIsObtained(t, p, reqs, n);
    }
  }

  /** What the rows say of a composed list where no key is listed twice, one requirement at a time. */
  lemma ComposedFares(t: Tables, p: Party, reqs: seq<Requirement>, mapped: map<string, nat>,
                      statuses: map<string, Status>, n: int)
    requires ComposedAs(t, p, reqs, mapped, statuses) && DistinctKeys(reqs) && 0 <= n < |reqs| && Met(t, p, reqs, n)
    ensures FaresAs(t, p, reqs[n], mapped, statuses)
  {
    hide Suits;
    var r := reqs[n];
    assert IsLast(reqs, n);
    FindsLowest(t, r, p.user, p.composition);
    if r.key in mapped {
      var m :| Decides(t, p, reqs, m, mapped[r.key]) && reqs[m].key == r.key;
      assert m == n;
    }
    if i: nat :| Suits(t, i, r.service, p.user, p.composition) && !(r.optional && r.key in p.declined) {
      var lowest := FindInstance(t, r, p.user, p.composition).value;
      assert Lowest(t, lowest, r.service, p.user, p.composition);
      assert Decides(t, p, reqs, n, lowest);
    }
  }

  // ---- A client composed ------------------------------------------------------------------------------------------

  /** From `t` to `u` client `c` is composed: its own mappings and statuses are those of the list, nothing else of it
      changes but the digest of the list, and nobody else's mappings or row change at all. */
  ghost predicate ComposedInto(w: Crypto, t: Tables, u: Tables, c: nat, p: Party, reqs: seq<Requirement>) {
    && c in t.clients && c in u.clients
    && u == t.(clients := t.clients[c := u.clients[c]], mappings := u.mappings)
    && (forall q :: q in u.mappings && q.0 != c ==> q in t.mappings && u.mappings[q] == t.mappings[q])
    && (forall q :: q in t.mappings && q.0 != c ==> q in u.mappings)
    && (if reqs == [] then u == t
        else && ComposedAs(t, p, reqs, MappingsOf(u, c), u.clients[c].statuses)
             && u.clients[c] == t.clients[c].(requirementsHash := w.sha256(Tokens.RequirementsText(reqs)),
                                              statuses := u.clients[c].statuses))
  }

  /** `auto_compose`, said of the rows. */
  lemma AutoComposesAs(w: Crypto, t: Tables, c: nat, reqs: seq<Requirement>, user: nat, declined: set<string>)
    requires c in t.clients && AutoCompose(w, t, c, reqs, user, declined).Ok?
    ensures ComposedInto(w, t, AutoCompose(w, t, c, reqs, user, declined).value, c,
                         Party(user, t.clients[c].composition, declined), reqs)
  {
    hide ComposedAs, Compose, Tokens.RequirementsText, Remapped;
    var u, p := AutoCompose(w, t, c, reqs, user, declined).value, Party(user, t.clients[c].composition, declined);
    if reqs == [] {
      SameRow(t.clients, c);
    } else {
      var composed := Compose(SceneOf(t, p), reqs).value;
      ComposesAs(t, p, reqs);
      RemappedViews(t, u, c, composed.mapped, c);
      OthersRemapped(t.mappings, c, composed.mapped);
    }
  }

  lemma SameRow(rows: map<nat, Client>, c: nat)
    requires c in rows
    ensures rows[c := rows[c]] == rows
  {
  }

  lemma OthersRemapped(mappings: map<(nat, string), nat>, c: nat, mapped: map<string, nat>)
    ensures var u := Remapped(mappings, c, mapped);
            && (forall q :: q in u && q.0 != c ==> q in mappings && u[q] == mappings[q])
            && (forall q :: q in mappings && q.0 != c ==> q in u)
  {
    hide Remapped;
    var u := Remapped(mappings, c, mapped);
    forall q: (nat, string) | q.0 != c ensures (q in u <==> q in mappings) && (q in u ==> u[q] == mappings[q]) {
      assert q == (q.0, q.1);
    }
  }
}
