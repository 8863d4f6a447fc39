/** The laws of whole manifests: what holds afterwards, idempotence, and what is left alone. */
module CompositionTheorems {
  import opened Prelude
  import opened Rows
  import opened Compositions
  import opened CompositionLaws
  import opened Invariants

  // ---- Distinct manifests -------------------------------------------------------------------------------

  predicate DistinctIdentifiers(requests: seq<InstanceRequest>) {
    forall j, k :: 0 <= j < k < |requests| ==> requests[j].identifier != requests[k].identifier
  }

  predicate DistinctNames(aliases: seq<StagingAlias>) {
    forall j, k :: 0 <= j < k < |aliases| ==> NameOf(aliases[j]) != NameOf(aliases[k])
  }

  predicate Distinct(m: CompositionManifest) {
    DistinctIdentifiers(m.instances) && forall k :: 0 <= k < |m.instances| ==> DistinctNames(m.instances[k].aliases)
  }

  function OwnerOf(c: Command): string {
    if c.Deploy? then c.request.identifier else c.token
  }

  lemma RequestCompatible(r: InstanceRequest)
    requires DistinctNames(r.aliases)
    ensures AllCompatible(CommandsOf(r))
    ensures forall k :: 0 <= k < |CommandsOf(r)| ==> OwnerOf(CommandsOf(r)[k]) == r.identifier
  {
    var commands := CommandsOf(r);
    var first := 1 + |r.roles| + |r.scopes|;
    assert forall k :: 0 <= k < |commands| ==> (commands[k].Deploy? <==> k == 0);
    assert forall k :: 0 <= k < |commands| ==> (commands[k].PutAlias? <==> first <= k);
    assert forall k :: first <= k < |commands| ==> commands[k] == PutAlias(r.identifier, r.aliases[k - first]);
  }

  lemma {:induction false} ManifestCompatible(requests: seq<InstanceRequest>)
    requires DistinctIdentifiers(requests) && forall k :: 0 <= k < |requests| ==> DistinctNames(requests[k].aliases)
    ensures AllCompatible(Commands(requests))
    ensures forall k :: 0 <= k < |Commands(requests)| ==>
              exists j :: 0 <= j < |requests| && requests[j].identifier == OwnerOf(Commands(requests)[k])
  {
    hide DistinctNames;
    if requests != [] {
      var n := |requests| - 1;
      var before, last := Commands(requests[..n]), CommandsOf(requests[n]);
      ManifestCompatible(requests[..n]);
      RequestCompatible(requests[n]);
      var all := Commands(requests);
      assert all == before + last;
      forall k | 0 <= k < |all| ensures exists j :: 0 <= j < |requests| && requests[j].identifier == OwnerOf(all[k]) {
        if k < |before| {
          var j :| 0 <= j < n && requests[..n][j].identifier == OwnerOf(before[k]);
          assert requests[j].identifier == OwnerOf(all[k]);
        } else {
          assert all[k] == last[k - |before|];
        }
      }
      forall j, k | 0 <= j < k < |all| ensures Compatible(all[j], all[k]) {
        if k < |before| {
          assert Compatible(before[j], before[k]);
        } else if |before| <= j {
          assert Compatible(last[j - |before|], last[k - |before|]);
        } else {
          var i :| 0 <= i < n && requests[..n][i].identifier == OwnerOf(before[j]);
          assert OwnerOf(last[k - |before|]) == requests[n].identifier != requests[i].identifier;
        }
      }
    }
  }

  // ---- What holds afterwards ------------------------------------------------------------------------------

  /** One instance for every request, with the columns the manifest calls for, used by its roles and
      scopes and pointed to by its aliases. */
  ghost predicate RequestHolds(p: Place, t: Tables, r: InstanceRequest) {
    && Holds(p, t, Deploy(r))
    && (forall k :: 0 <= k < |r.roles| ==> Holds(p, t, UseRole(r.identifier, r.roles[k])))
    && (forall k :: 0 <= k < |r.scopes| ==> Holds(p, t, UseScope(r.identifier, r.scopes[k])))
    && (forall k :: 0 <= k < |r.aliases| ==> Holds(p, t, PutAlias(r.identifier, r.aliases[k])))
  }

  lemma OneRequestHolds(p: Place, t: Tables, r: InstanceRequest)
    requires AllHold(p, t, CommandsOf(r))
    ensures RequestHolds(p, t, r)
  {
    hide Holds;
    var commands := CommandsOf(r);
    assert commands[0] == Deploy(r);
    forall k | 0 <= k < |r.roles| ensures Holds(p, t, UseRole(r.identifier, r.roles[k])) {
      assert commands[1 + k] == UseRole(r.identifier, r.roles[k]);
    }
    forall k | 0 <= k < |r.scopes| ensures Holds(p, t, UseScope(r.identifier, r.scopes[k])) {
      assert commands[1 + |r.roles| + k] == UseScope(r.identifier, r.scopes[k]);
    }
    forall k | 0 <= k < |r.aliases| ensures Holds(p, t, PutAlias(r.identifier, r.aliases[k])) {
      assert commands[1 + |r.roles| + |r.scopes| + k] == PutAlias(r.identifier, r.aliases[k]);
    }
  }

  lemma {:induction false} RequestsHold(p: Place, t: Tables, requests: seq<InstanceRequest>)
    requires AllHold(p, t, Commands(requests))
    ensures forall k :: 0 <= k < |requests| ==> RequestHolds(p, t, requests[k])
  {
    hide RequestHolds, Holds, CommandsOf;
    if requests != [] {
      var n := |requests| - 1;
      var all, before, last := Commands(requests), Commands(requests[..n]), CommandsOf(requests[n]);
      assert all == before + last;
      assert forall k :: 0 <= k < |before| ==> before[k] == all[k];
      assert forall k :: 0 <= k < |last| ==> last[k] == all[|before| + k];
      RequestsHold(p, t, requests[..n]);
      OneRequestHolds(p, t, requests[n]);
    }
  }

  function PlaceOf(t: Tables, c: nat, organization: nat): Place
    requires organization in t.organizations
  {
    Place(c, organization, t.organizations[organization].owner)
  }

  /** A successful application leaves the store as the manifest describes it. */
  lemma {:induction false} ManifestHolds(w: Crypto, t: Tables, m: CompositionManifest, organization: nat)
    requires KeysDrawn(t) && organization in t.organizations && Distinct(m) && Apply(w, t, m, organization).Ok?
    ensures var (u, c) := Apply(w, t, m, organization).value;
            && CompositionRows(u.compositions, organization, m.identifier) == {c}
            && c in u.compositions && u.compositions[c]
               == Described(w, t.organizations[organization], m, u.compositions[c])
            && forall k :: 0 <= k < |m.instances| ==> RequestHolds(PlaceOf(t, c, organization), u, m.instances[k])
  {
    hide Described, RequestHolds, KeysDrawn, DistinctNames, UpsertComposition, Exec, AllCompatible, AllHold, ExecAll,
      Commands, CompositionRows;
    var (t1, c) := UpsertComposition(w, t, m, organization).value;
    UpsertsComposition(w, t, m, organization);
    ManifestCompatible(m.instances);
    var p := PlaceOf(t, c, organization);
    ExecAllHolds(p, t1, Commands(m.instances));
    RequestsHold(p, ExecAll(p, t1, Commands(m.instances)).value, m.instances);
  }

  /** What the upsert does to the composition table. */
  ghost predicate CompositionPlaced(w: Crypto, o: Organization, m: CompositionManifest, organization: nat,
                                    before: map<nat, Composition>, after: map<nat, Composition>, next: nat, c: nat) {
    && CompositionRows(after, organization, m.identifier) == {c}
    && c in after && after == before[c := after[c]] && Described(w, o, m, after[c]) == after[c]
    && (if c in before then CompositionKey(before[c]) == (organization, m.identifier)
        && after[c] == Described(w, o, m, before[c])
        else CompositionRows(before, organization, m.identifier) == {} && c == next && after[c].authKey.None?)
  }

  lemma CompositionUpdated(w: Crypto, o: Organization, m: CompositionManifest, organization: nat,
                           rows: map<nat, Composition>, next: nat, c: nat)
    requires Drawn(rows, next) && CompositionRows(rows, organization, m.identifier) == {c}
    ensures c in rows && CompositionPlaced(w, o, m, organization, rows, rows[c := Described(w, o, m, rows[c])], next, c)
    ensures Drawn(rows[c := Described(w, o, m, rows[c])], next)
  {
    hide Having;
    RowWith(rows, CompositionKey, (organization, m.identifier), c);
    Put(rows, CompositionKey, c, Described(w, o, m, rows[c]));
  }

  lemma CompositionAdded(w: Crypto, o: Organization, m: CompositionManifest, organization: nat,
                         rows: map<nat, Composition>, next: nat)
    requires Drawn(rows, next) && CompositionRows(rows, organization, m.identifier) == {}
    ensures var row := Described(w, o, m, BlankComposition(organization, m.identifier));
            CompositionPlaced(w, o, m, organization, rows, rows[next := row], next, next)
                && Drawn(rows[next := row], next + 1)
  {
    hide Having;
    Put(rows, CompositionKey, next, Described(w, o, m, BlankComposition(organization, m.identifier)));
  }

  lemma UpsertsComposition(w: Crypto, t: Tables, m: CompositionManifest, organization: nat)
    requires KeysDrawn(t) && organization in t.organizations && UpsertComposition(w, t, m, organization).Ok?
    ensures var (u, c) := UpsertComposition(w, t, m, organization).value;
            && KeysDrawn(u) && t.nextId <= u.nextId
            && CompositionPlaced(w, t.organizations[organization], m, organization, t.compositions, u.compositions,
                                 t.nextId, c)
  {
    hide *;
    var rows := CompositionRows(t.compositions, organization, m.identifier);
    GetRows(rows);
    match Get(rows)
    case Found(c) => UpsertFinds(w, t, m, organization, c);
    case Missing => UpsertAdds(w, t, m, organization);
    case Many => UpsertNeedsOne(w, t, m, organization);
  }

  lemma UpsertNeedsOne(w: Crypto, t: Tables, m: CompositionManifest, organization: nat)
    requires organization in t.organizations && UpsertComposition(w, t, m, organization).Ok?
    ensures !Get(CompositionRows(t.compositions, organization, m.identifier)).Many?
  {
    hide CompositionRows, First, Get, Described;
  }

  lemma UpsertFinds(w: Crypto, t: Tables, m: CompositionManifest, organization: nat, c: nat)
    requires KeysDrawn(t) && organization in t.organizations
             && CompositionRows(t.compositions, organization, m.identifier) == {c}
    ensures UpsertComposition(w, t, m, organization).Ok?
    ensures var (u, d) := UpsertComposition(w, t, m, organization).value;
            && d == c && KeysDrawn(u) && t.nextId <= u.nextId
            && CompositionPlaced(w, t.organizations[organization], m, organization, t.compositions, u.compositions,
                                 t.nextId, c)
  {
    hide CompositionRows, First, Get, Drawn, Described, CompositionPlaced, KeysDrawn;
    GetSingle(CompositionRows(t.compositions, organization, m.identifier), c);
    CompositionKeys(t, t);
    CompositionUpdated(w, t.organizations[organization], m, organization, t.compositions, t.nextId, c);
    CompositionKeys(t, UpsertComposition(w, t, m, organization).value.0);
  }

  lemma UpsertAdds(w: Crypto, t: Tables, m: CompositionManifest, organization: nat)
    requires KeysDrawn(t) && organization in t.organizations
             && Get(CompositionRows(t.compositions, organization, m.identifier)).Missing?
    ensures UpsertComposition(w, t, m, organization).Ok?
    ensures var (u, c) := UpsertComposition(w, t, m, organization).value;
            && KeysDrawn(u) && t.nextId <= u.nextId
            && CompositionPlaced(w, t.organizations[organization], m, organization, t.compositions, u.compositions,
                                 t.nextId, c)
  {
    hide CompositionRows, First, Get, Drawn, Described, CompositionPlaced, KeysDrawn;
    GetRows(CompositionRows(t.compositions, organization, m.identifier));
    CompositionKeys(t, t);
    CompositionAdded(w, t.organizations[organization], m, organization, t.compositions, t.nextId);
    CompositionKeys(t, UpsertComposition(w, t, m, organization).value.0);
  }

  lemma CompositionKeys(t: Tables, u: Tables)
    requires KeysDrawn(t) && u == t.(nextId := u.nextId, compositions := u.compositions) && t.nextId <= u.nextId
    ensures Drawn(t.compositions, t.nextId)
    ensures Drawn(u.compositions, u.nextId) ==> KeysDrawn(u)
  {
  }

  // ---- Applying again ---------------------------------------------------------------------------------------

  /** The composition row written once is found and written the same again. */
  lemma UpsertAgain(w: Crypto, v: Tables, m: CompositionManifest, organization: nat, c: nat)
    requires organization in v.organizations && CompositionRows(v.compositions, organization, m.identifier) == {c}
    requires c in v.compositions
             && Described(w, v.organizations[organization], m, v.compositions[c]) == v.compositions[c]
    ensures UpsertComposition(w, v, m, organization) == Ok((v, c))
  {
    hide CompositionRows, First, Get, Described;
    GetSingle(CompositionRows(v.compositions, organization, m.identifier), c);
    SameRow(v.compositions, c, v.compositions[c]);
  }

  /** Applying a manifest twice is applying it once. */
  lemma {:induction false} ApplyTwice(w: Crypto, t: Tables, m: CompositionManifest, organization: nat)
    requires KeysDrawn(t) && organization in t.organizations && Distinct(m) && Apply(w, t, m, organization).Ok?
    ensures var (u, c) := Apply(w, t, m, organization).value; Apply(w, u, m, organization) == Ok((u, c))
  {
    hide KeysDrawn, DistinctNames, UpsertComposition, AllCompatible, AllHold, ExecAll, Commands, CompositionRows;
    var (t1, c) := UpsertComposition(w, t, m, organization).value;
    UpsertsComposition(w, t, m, organization);
    ManifestCompatible(m.instances);
    var p := PlaceOf(t, c, organization);
    var u := ExecAll(p, t1, Commands(m.instances)).value;
    ExecAllHolds(p, t1, Commands(m.instances));
    UpsertAgain(w, u, m, organization, c);
    AllHoldChangesNothing(p, u, Commands(m.instances));
  }
}
