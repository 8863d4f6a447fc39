/** Compositions from kommunity partners: create, ask the partner's hook, keep or delete. */
module Partners {
  import opened Prelude
  import opened Rows
  import opened Compositions
  import opened CompositionLaws
  import opened CompositionTheorems
  import opened CompositionFrames
  import opened CompositionServices
  import opened DatabaseServices
  import opened Cascade

  // ---- Which partners apply ---------------------------------------------------------------------------------

  /** The conditions of `filter_config`; an empty list is no condition. */
  datatype Filter = Filter(domains: seq<string>, suffixes: seq<string>, usernames: seq<string>, substrings: seq<string>)

  datatype Owner = Owner(email: string, username: string)

  datatype Partner = Partner(identifier: string, autoConfigure: bool, composition: Option<CompositionManifest>,
                             filter: Filter, hook: bool)

  /** `split("@")[-1].lower()`, or nothing without an at-sign. */
  function DomainOf(lower: string -> string, email: string): string {
    if '@' !in email then "" else lower(AfterLastAt(email))
  }

  function AfterLastAt(text: string): string {
    if '@' !in text then text else AfterLastAt(text[IndexOfAt(text) + 1..])
  }

  function IndexOfAt(text: string): (i: nat)
    requires '@' in text
    ensures i < |text| && text[i] == '@'
  {
    if text[0] == '@' then 0 else 1 + IndexOfAt(text[1..])
  }

  /** What `split("@")[-1]` picks is what follows the last at-sign. */
  lemma {:induction false} LastAt(text: string) returns (before: string)
    requires '@' in text
    ensures text == before + "@" + AfterLastAt(text) && '@' !in AfterLastAt(text)
    decreases |text|
  {
    var i := IndexOfAt(text);
    var first, rest := text[..i], text[i + 1..];
    SplitAt(text, i);
    assert AfterLastAt(text) == AfterLastAt(rest);
    if '@' in rest {
      var more := LastAt(rest);
      Regroup(first, more, AfterLastAt(rest));
      before := first + "@" + more;
    } else {
      before := first;
    }
  }

  lemma SplitAt(text: string, i: nat)
    requires i < |text| && text[i] == '@'
    ensures text == text[..i] + "@" + text[i + 1..]
  {
  }

  lemma Regroup(a: string, b: string, c: string)
    ensures a + "@" + (b + "@" + c) == (a + "@" + b) + "@" + c
  {
  }

  predicate EndsWith(text: string, suffix: string) {
    |suffix| <= |text| && text[|text| - |suffix|..] == suffix
  }

  predicate StartsAt(text: string, part: string, i: int) {
    0 <= i <= |text| - |part| && text[i..i + |part|] == part
  }

  predicate Contains(text: string, part: string) {
    exists i :: 0 <= i <= |text| && StartsAt(text, part, i)
  }

  predicate AppliesToUser(lower: string -> string, f: Filter, owner: Owner) {
    var domain := DomainOf(lower, owner.email);
    && (f.domains == [] || exists d :: d in f.domains && lower(d) == lower(domain))
    && (f.suffixes == [] || exists s :: s in f.suffixes && EndsWith(domain, lower(s)))
    && (f.usernames == [] || owner.username in f.usernames)
    && (f.substrings == [] || exists s :: s in f.substrings && Contains(owner.username, s))
  }

  // ---- One partner --------------------------------------------------------------------------------------------

  /** `create_composition_from_partner`; `approves` is what the hook, if there is one, would answer.  The
      composition is committed before the hook is asked, so a rejection deletes it again. */
  function FromPartner(w: Crypto, t: Tables, partner: Partner, organization: nat,
                       approves: bool): (r: (Tables, Result<nat, Error>))
    requires organization in t.organizations
    ensures r.0.organizations == t.organizations
  {
    if partner.composition.None? then (t, Err(NoConfiguration))
    else
      match Apply(w, t, partner.composition.value, organization)
      case Err(e) => (t, Err(e))
      case Ok((u, c)) => if partner.hook && !approves then (Delete(u, c), Err(Rejected)) else (u, Ok(c))
  }

  predicate Rejects(partner: Partner, approves: bool) {
    partner.hook && !approves
  }

  /** The composition rows of an organization with one identifier. */
  function Kept(t: Tables, organization: nat, identifier: string): set<nat> {
    CompositionRows(t.compositions, organization, identifier)
  }

  lemma AppliedRows(w: Crypto, t: Tables, m: CompositionManifest, organization: nat)
    requires KeysDrawn(t) && organization in t.organizations && Apply(w, t, m, organization).Ok?
    ensures var (u, c) := Apply(w, t, m, organization).value;
            && KeysDrawn(u) && t.nextId <= u.nextId
            && Kept(u, organization, m.identifier) == {c}
            && (forall x :: x != m.identifier ==> Kept(u, organization, x) == Kept(t, organization, x))
  {
    hide KeysDrawn, UpsertComposition, Exec, Frame, ExecAll, Commands, Having, Described;
    var (t1, c) := UpsertComposition(w, t, m, organization).value;
    UpsertsComposition(w, t, m, organization);
    ExecAllFrame(PlaceOf(t, c, organization), t1, Commands(m.instances));
    OtherIdentifiers(w, t.organizations[organization], m, organization, t.compositions, t1.compositions, t.nextId, c);
  }

  lemma OtherIdentifiers(w: Crypto, o: Organization, m: CompositionManifest, organization: nat,
                         before: map<nat, Composition>, after: map<nat, Composition>, next: nat, c: nat)
    requires CompositionPlaced(w, o, m, organization, before, after, next, c)
    ensures CompositionRows(after, organization, m.identifier) == {c}
    ensures forall x :: x != m.identifier ==>
              CompositionRows(after, organization, x) == CompositionRows(before, organization, x)
  {
    hide Having, Described;
    RowWith(after, CompositionKey, (organization, m.identifier), c);
    if c in before {
      HavingKey(before, CompositionKey, (organization, m.identifier), c);
      OthersFound(before, after, organization, m.identifier, c);
    }
    Put(before, CompositionKey, c, after[c]);
  }

  lemma HavingKey<T, K>(rows: map<nat, T>, key: T -> K, k: K, id: nat)
    requires id in rows && key(rows[id]) == k
    ensures id in Having(rows, key, k)
  {
  }

  /** Writing one row takes no other out of a look-up. */
  lemma OthersFound(before: map<nat, Composition>, after: map<nat, Composition>, organization: nat, identifier: string,
                    c: nat)
    requires c in before && c in after && after == before[c := after[c]]
    ensures CompositionRows(before, organization, identifier) <= CompositionRows(after, organization, identifier) + {c}
  {
  }

  lemma DeletedRows(t: Tables, c: nat, organization: nat, identifier: string)
    requires KeysDrawn(t) && Kept(t, organization, identifier) == {c}
    ensures KeysDrawn(Delete(t, c))
    ensures Kept(Delete(t, c), organization, identifier) == {}
    ensures forall x :: x != identifier ==> Kept(Delete(t, c), organization, x) == Kept(t, organization, x)
  {
    hide GoneTokens, GoneMappings, GoneAliases, GoneUsedAliases, GonePermissions, GoneCodes, GoneServiceCodes,
      GoneCompositionCodes, GoneClients, MembershipsWithout, ClientsWithout, GoneGrants, GoneAuthKeys, Having;
    RowWith(t.compositions, CompositionKey, (organization, identifier), c);
    WithoutRow(t.compositions, c, GoneAuthKeys(t, c));
  }

  lemma WithoutRow(rows: map<nat, Composition>, c: nat, authKeys: set<nat>)
    requires c in rows
    ensures forall k ::
              Having(CompositionsWithout(rows, c, authKeys), CompositionKey, k) == Having(rows, CompositionKey, k) - {c}
    ensures forall k :: k != CompositionKey(rows[c]) ==>
              Having(rows, CompositionKey, k) - {c} == Having(rows, CompositionKey, k)
  {
    var after := CompositionsWithout(rows, c, authKeys);
    forall k ensures Having(after, CompositionKey, k) == Having(rows, CompositionKey, k) - {c} {
      assert forall o :: o in Having(after, CompositionKey, k) <==> o in Having(rows, CompositionKey, k) - {c};
    }
  }

  /** What one partner does to the organization's compositions: exactly its own identifier is concerned,
      which is there afterwards unless the hook rejected it, and then is not there at all. */
  lemma PartnerDecides(w: Crypto, t: Tables, partner: Partner, organization: nat, approves: bool)
    requires KeysDrawn(t) && organization in t.organizations && partner.composition.Some?
    ensures var (u, r) := FromPartner(w, t, partner, organization, approves);
            var m := partner.composition.value;
            && KeysDrawn(u)
            && (r.Err? && r.error != Rejected ==> u == t)
            && (r.Ok? ==> !Rejects(partner, approves) && Kept(u, organization, m.identifier) == {r.value})
            && (r == Err(Rejected) ==> Rejects(partner, approves) && Kept(u, organization, m.identifier) == {})
            && (forall x :: x != m.identifier ==> Kept(u, organization, x) == Kept(t, organization, x))
  {
    hide KeysDrawn, Apply, Delete, Kept;
    var m := partner.composition.value;
    ApplyIsNotRejected(w, t, m, organization);
    if Apply(w, t, m, organization).Ok? {
      AppliedRows(w, t, m, organization);
      var (u, c) := Apply(w, t, m, organization).value;
      DeletedRows(u, c, organization, m.identifier);
    }
  }

  lemma ApplyIsNotRejected(w: Crypto, t: Tables, m: CompositionManifest, organization: nat)
    requires organization in t.organizations
    ensures Apply(w, t, m, organization) != Err(Rejected)
  {
    hide Exec, Commands, Having, Described;
    var upserted := UpsertComposition(w, t, m, organization);
    if upserted.Ok? {
      ExecAllIsNotRejected(PlaceOf(t, upserted.value.1, organization), upserted.value.0, Commands(m.instances));
    }
  }

  lemma {:induction false} ExecAllIsNotRejected(p: Place, t: Tables, commands: seq<Command>)
    ensures ExecAll(p, t, commands) != Err(Rejected)
  {
    hide Exec;
    if commands != [] {
      var before := ExecAll(p, t, commands[..|commands| - 1]);
      ExecAllIsNotRejected(p, t, commands[..|commands| - 1]);
      if before.Ok? { ExecIsNotRejected(p, before.value, commands[|commands| - 1]); }
    }
  }

  lemma ExecIsNotRejected(p: Place, t: Tables, command: Command)
    ensures Exec(p, t, command) != Err(Rejected)
  {
    hide Having, InstanceUnique, AliasUnique, Deployed, Pointed;
  }

  lemma NoTablesRefer()
    ensures KeysDrawn(NoTables()) && NoDangling(NoTables())
  {
  }

  // ---- A rejection cleans up -----------------------------------------------------------------------------------

  lemma GrantsStillRefer(p: Place, instances: map<nat, Instance>, before: map<nat, Grant>, after: map<nat, Grant>,
                         scopes: bool, commands: seq<Command>, former: set<nat>)
    requires GrantsRefer(before, former) && former <= instances.Keys
             && GrantsFrame(p, instances, before, after, scopes, commands)
    ensures GrantsRefer(after, instances.Keys) && before.Keys <= after.Keys
  {
    hide UsesKey;
    forall g, i | g in after && i in after[g].usedBy ensures i in instances {
      if g in before && i in before[g].usedBy {
        assert i in former;
      } else {
        assert IsUser(after, g, i) && !IsUser(before, g, i);
      }
    }
  }

  lemma InstancesStillRefer(p: Place, t: Tables, u: Tables, commands: seq<Command>)
    requires InstancesRefer(t) && Frame(p, t, u, commands) && OnlyCompositions(t, u)
    requires t.compositions.Keys <= u.compositions.Keys && p.composition in u.compositions
    ensures InstancesRefer(u)
  {
    hide DeploysToken, PointsName, GrantsRefer, GrantsFrame;
    assert t.instances.Keys <= u.instances.Keys;
    GrantsStillRefer(p, u.instances, t.roles, u.roles, false, commands, t.instances.Keys);
    GrantsStillRefer(p, u.instances, t.scopes, u.scopes, true, commands, t.instances.Keys);
  }

  lemma KeysGrow(p: Place, t: Tables, u: Tables, commands: seq<Command>)
    requires Frame(p, t, u, commands)
    ensures t.instances.Keys <= u.instances.Keys && t.scopes.Keys <= u.scopes.Keys && t.aliases.Keys <= u.aliases.Keys
  {
    hide DeploysToken, PointsName, NewUsers;
  }

  lemma OthersStillRefer(t: Tables, u: Tables)
    requires ClientsRefer(t) && VouchersRefer(t) && CompositionsRefer(t) && OnlyCompositions(t, u)
    requires t.instances.Keys <= u.instances.Keys && t.scopes.Keys <= u.scopes.Keys && t.aliases.Keys <= u.aliases.Keys
    requires t.compositions.Keys <= u.compositions.Keys
    requires forall k :: k in u.compositions && u.compositions[k].authKey.Some? ==>
               k in t.compositions && t.compositions[k].authKey == u.compositions[k].authKey
    ensures ClientsRefer(u) && VouchersRefer(u) && CompositionsRefer(u)
  {
  }

  /** Applying a manifest makes no reference dangle. */
  lemma ApplyKeepsReferences(w: Crypto, t: Tables, m: CompositionManifest, organization: nat)
    requires KeysDrawn(t) && organization in t.organizations && NoDangling(t) && Apply(w, t, m, organization).Ok?
    ensures NoDangling(Apply(w, t, m, organization).value.0)
  {
    hide KeysDrawn, Apply, Frame, InstancesRefer, ClientsRefer, VouchersRefer, CompositionsRefer, CompositionRows;
    var (u, c) := Apply(w, t, m, organization).value;
    ManifestFrame(w, t, m, organization);
    InstancesStillRefer(PlaceOf(t, c, organization), t, u, Commands(m.instances));
    KeysGrow(PlaceOf(t, c, organization), t, u, Commands(m.instances));
    OthersStillRefer(t, u);
  }

  /** A rejected partner's composition is gone with everything that referred to it: nothing dangles, and every
      other composition is there with its instances as they were before the partner was applied. */
  lemma {:induction false} RejectionCleansUp(w: Crypto, t: Tables, partner: Partner, organization: nat)
    requires KeysDrawn(t) && organization in t.organizations && NoDangling(t)
    requires FromPartner(w, t, partner, organization, false).1 == Err(Rejected)
    ensures partner.composition.Some?
    ensures var u, m := FromPartner(w, t, partner, organization, false).0, partner.composition.value;
            && NoDangling(u)
            && Kept(u, organization, m.identifier) == {}
            && (forall d :: d in t.compositions && CompositionKey(t.compositions[d]) != (organization, m.identifier) ==>
                  && d in u.compositions && u.compositions[d]
                     == t.compositions[d].(authKey := u.compositions[d].authKey)
                  && forall i :: i in t.instances && t.instances[i].composition == d ==>
                        i in u.instances && u.instances[i] == t.instances[i])
  {
    hide KeysDrawn, Apply, Delete, NoDangling, Kept;
    PartnerDecides(w, t, partner, organization, false);
    var m := partner.composition.value;
    ApplyIsNotRejected(w, t, m, organization);
    var (v, c) := Apply(w, t, m, organization).value;
    ApplyKeepsReferences(w, t, m, organization);
    DeleteLeavesNoDangling(v, c);
    AppliedRows(w, t, m, organization);
    forall d | d in t.compositions && CompositionKey(t.compositions[d]) != (organization, m.identifier)
      ensures d in Delete(v, c).compositions
              && Delete(v, c).compositions[d] == t.compositions[d].(authKey := Delete(v, c).compositions[d].authKey)
      ensures forall i :: i in t.instances && t.instances[i].composition == d ==>
                i in Delete(v, c).instances && Delete(v, c).instances[i] == t.instances[i]
    {
      OtherRemains(w, t, m, organization, d);
    }
  }

  lemma OtherRemains(w: Crypto, t: Tables, m: CompositionManifest, organization: nat, d: nat)
    requires KeysDrawn(t) && organization in t.organizations && Apply(w, t, m, organization).Ok?
    requires d in t.compositions && CompositionKey(t.compositions[d]) != (organization, m.identifier)
    ensures var (v, c) := Apply(w, t, m, organization).value;
            var u := Delete(v, c);
            && d in u.compositions && u.compositions[d] == t.compositions[d].(authKey := u.compositions[d].authKey)
            && forall i :: i in t.instances && t.instances[i].composition == d ==>
                  i in u.instances && u.instances[i] == t.instances[i]
  {
    hide KeysDrawn, Apply, Delete, Frame, GoneAuthKeys, Having;
    var (v, c) := Apply(w, t, m, organization).value;
    ManifestFrame(w, t, m, organization);
    AppliedRows(w, t, m, organization);
    RowWith(v.compositions, CompositionKey, (organization, m.identifier), c);
    OtherCompositionsRemain(v, c, d);
    forall i | i in t.instances && t.instances[i].composition == d
      ensures i in v.instances && v.instances[i] == t.instances[i] {
      OthersUntouched(PlaceOf(t, c, organization), t, v, Commands(m.instances), i);
    }
  }

  // ---- All partners -------------------------------------------------------------------------------------------

  /** What the loop knows of a partner: the row and what its hook would answer. */
  datatype Candidate = Candidate(partner: Partner, approves: bool)

  /** The loop's own filter: auto-configured, applying to the owner, and with a composition. */
  predicate Considered(lower: string -> string, owner: Owner, k: Candidate) {
    k.partner.autoConfigure && AppliesToUser(lower, k.partner.filter, owner) && k.partner.composition.Some?
  }

  /** The text ends so. */
  ghost predicate HasSuffix(text: string, suffix: string) {
    exists before :: text == before + suffix
  }

  /** The text has the part somewhere in it. */
  ghost predicate HasPart(text: string, part: string) {
    exists before, after :: text == before + part + after
  }

  /** The email's domain: what follows its last at-sign, in lower case; nothing without one. */
  ghost predicate IsDomain(lower: string -> string, email: string, domain: string) {
    || ('@' !in email && domain == "")
    || exists before, tail :: email == before + "@" + tail && '@' !in tail && domain == lower(tail)
  }

  /** The owner meets every condition the filter lists, an empty list being none. */
  ghost predicate Meets(lower: string -> string, f: Filter, owner: Owner) {
    && (forall domain :: IsDomain(lower, owner.email, domain) ==>
          && (f.domains != [] ==> exists d :: d in f.domains && lower(d) == lower(domain))
          && (f.suffixes != [] ==> exists s :: s in f.suffixes && HasSuffix(domain, lower(s))))
    && (f.usernames != [] ==> owner.username in f.usernames)
    && (f.substrings != [] ==> exists s :: s in f.substrings && HasPart(owner.username, s))
  }

  lemma SuffixIs(text: string, suffix: string)
    ensures EndsWith(text, suffix) <==> HasSuffix(text, suffix)
  {
    if EndsWith(text, suffix) { assert text == text[..|text| - |suffix|] + suffix; }
    if before :| text == before + suffix { assert text[|before|..] == suffix; }
  }

  lemma PartIs(text: string, part: string)
    ensures Contains(text, part) <==> HasPart(text, part)
  {
    if i :| 0 <= i <= |text| && StartsAt(text, part, i) {
      assert text == text[..i] + part + text[i + |part|..];
    }
    if before, after :| text == before + part + after {
      assert text[|before|..|before| + |part|] == part;
      assert StartsAt(text, part, |before|);
    }
  }

  /** There is one last at-sign. */
  lemma TailIs(a: string, b: string, x: string, y: string)
    requires a + "@" + b == x + "@" + y && '@' !in b && '@' !in y
    ensures b == y
  {
    var text := a + "@" + b;
    assert text == x + "@" + y;
    assert text[|a|] == '@' && text[|x|] == '@';
    assert forall i :: |a| < i < |text| ==> text[i] == b[i - |a| - 1];
    assert forall i :: |x| < i < |text| ==> text[i] == y[i - |x| - 1];
    assert text[|a| + 1..] == b && text[|x| + 1..] == y;
  }

  lemma DomainIs(lower: string -> string, email: string, domain: string)
    ensures IsDomain(lower, email, domain) <==> domain == DomainOf(lower, email)
  {
    if '@' in email {
      var before := LastAt(email);
      var tail := AfterLastAt(email);
      assert email == before + "@" + tail && '@' !in tail;
      if b, t :| email == b + "@" + t && '@' !in t && domain == lower(t) {
        TailIs(before, tail, b, t);
      }
    } else {
      assert forall b: string, t: string :: (b + "@" + t)[|b|] == '@';
    }
  }

  /** The loop considers a partner exactly when it is auto-configured, has a composition, and the owner meets
      its filter. */
  lemma ConsideredExactly(lower: string -> string, owner: Owner, k: Candidate)
    ensures Considered(lower, owner, k) <==>
            k.partner.autoConfigure && k.partner.composition.Some? && Meets(lower, k.partner.filter, owner)
  {
    hide EndsWith, Contains, HasSuffix, HasPart, IsDomain, DomainOf;
    var f, domain := k.partner.filter, DomainOf(lower, owner.email);
    DomainIs(lower, owner.email, domain);
    forall d ensures IsDomain(lower, owner.email, d) <==> d == domain { DomainIs(lower, owner.email, d); }
    forall s ensures EndsWith(domain, lower(s)) <==> HasSuffix(domain, lower(s)) { SuffixIs(domain, lower(s)); }
    forall s ensures Contains(owner.username, s) <==> HasPart(owner.username, s) { PartIs(owner.username, s); }
  }

  /** `auto_configure_kommunity_partners`; an error other than a rejection ends it, and what was applied
      before stays applied. */
  function AutoConfigure(w: Crypto, lower: string -> string, t: Tables, organization: nat, owner: Owner,
                         candidates: seq<Candidate>): (r: (Tables, Result<seq<string>, Error>))
    requires organization in t.organizations
    ensures r.0.organizations == t.organizations
  {
    if candidates == [] then (t, Ok([]))
    else
      var k := candidates[|candidates| - 1];
      var (u, before) := AutoConfigure(w, lower, t, organization, owner, candidates[..|candidates| - 1]);
      if before.Err? || !Considered(lower, owner, k) then (u, before)
      else
        match FromPartner(w, u, k.partner, organization, k.approves)
        case (v, Ok(_)) => (v, Ok(before.value + [k.partner.identifier]))
        case (v, Err(Rejected)) => (v, before)
        case (v, Err(e)) => (v, Err(e))
  }

  /** In-order positions of the partners that are considered and not rejected. */
  function Chosen(lower: string -> string, owner: Owner, candidates: seq<Candidate>): (r: seq<nat>)
    ensures forall i :: 0 <= i < |r| ==> r[i] < |candidates|
    ensures forall i, j :: 0 <= i < j < |r| ==> r[i] < r[j]
    ensures forall n :: 0 <= n < |candidates| ==>
              (n in r <==>
                 Considered(lower, owner, candidates[n]) && !Rejects(candidates[n].partner, candidates[n].approves))
  {
    if candidates == [] then []
    else
      var last := |candidates| - 1;
      var before := Chosen(lower, owner, candidates[..last]);
      var k := candidates[last];
      if Considered(lower, owner, k) && !Rejects(k.partner, k.approves) then before + [last] else before
  }

  /** The list returned names exactly the considered partners that were not rejected, in order. */
  lemma {:induction false} ReturnsTheChosen(w: Crypto, lower: string -> string, t: Tables, organization: nat,
                                            owner: Owner, candidates: seq<Candidate>)
    requires KeysDrawn(t) && organization in t.organizations
    requires AutoConfigure(w, lower, t, organization, owner, candidates).1.Ok?
    ensures var (u, r) := AutoConfigure(w, lower, t, organization, owner, candidates);
            var chosen := Chosen(lower, owner, candidates);
            KeysDrawn(u) && |r.value| == |chosen| && forall i :: 0 <= i < |chosen| ==>
              r.value[i] == candidates[chosen[i]].partner.identifier
  {
    hide KeysDrawn, FromPartner, Considered, Rejects, Kept;
    if candidates != [] {
      var last := |candidates| - 1;
      var k := candidates[last];
      ReturnsTheChosen(w, lower, t, organization, owner, candidates[..last]);
      var u := AutoConfigure(w, lower, t, organization, owner, candidates[..last]).0;
      if Considered(lower, owner, k) { ConsideredDecides(w, lower, u, owner, k, organization); }
    }
  }

  lemma ConsideredDecides(w: Crypto, lower: string -> string, t: Tables, owner: Owner, k: Candidate, organization: nat)
    requires KeysDrawn(t) && organization in t.organizations && Considered(lower, owner, k)
    ensures k.partner.composition.Some?
    ensures var (u, r) := FromPartner(w, t, k.partner, organization, k.approves);
            var m := k.partner.composition.value;
            && KeysDrawn(u)
            && (r.Ok? ==> !Rejects(k.partner, k.approves) && Kept(u, organization, m.identifier) == {r.value})
            && (r == Err(Rejected) ==> Rejects(k.partner, k.approves) && Kept(u, organization, m.identifier) == {})
            && (forall x :: x != m.identifier ==> Kept(u, organization, x) == Kept(t, organization, x))
  {
    hide KeysDrawn, FromPartner, Rejects, Kept, AppliesToUser;
    PartnerDecides(w, t, k.partner, organization, k.approves);
  }

  predicate For(lower: string -> string, owner: Owner, k: Candidate, identifier: string) {
    Considered(lower, owner, k) && k.partner.composition.value.identifier == identifier
  }

  /** The last considered partner for an identifier. */
  predicate LastFor(lower: string -> string, owner: Owner, candidates: seq<Candidate>, identifier: string, j: int) {
    && 0 <= j < |candidates| && For(lower, owner, candidates[j], identifier)
    && forall i :: j < i < |candidates| ==> !For(lower, owner, candidates[i], identifier)
  }

  /** Going from `t` to `u`: the last considered partner for an identifier decides, by having been approved
      or rejected; where no partner was considered nothing changes. */
  ghost predicate LastDecides(lower: string -> string, owner: Owner, t: Tables, u: Tables, organization: nat,
                              candidates: seq<Candidate>, identifier: string) {
    && (forall j :: LastFor(lower, owner, candidates, identifier, j) ==>
          if Rejects(candidates[j].partner, candidates[j].approves) then Kept(u, organization, identifier) == {}
          else exists c :: Kept(u, organization, identifier) == {c})
    && ((forall j :: 0 <= j < |candidates| ==> !For(lower, owner, candidates[j], identifier)) ==>
          Kept(u, organization, identifier) == Kept(t, organization, identifier))
  }

  /** Which compositions there are in the end. */
  lemma {:induction false} LastPartnerDecides(w: Crypto, lower: string -> string, t: Tables, organization: nat,
                                              owner: Owner, candidates: seq<Candidate>, identifier: string)
    requires KeysDrawn(t) && organization in t.organizations
    requires AutoConfigure(w, lower, t, organization, owner, candidates).1.Ok?
    ensures var u := AutoConfigure(w, lower, t, organization, owner, candidates).0;
            KeysDrawn(u) && LastDecides(lower, owner, t, u, organization, candidates, identifier)
  {
    hide KeysDrawn, FromPartner, Considered, LastDecides, Kept, Rejects;
    if candidates == [] {
      NoCandidates(lower, owner, t, organization, identifier);
    } else {
      var last := |candidates| - 1;
      var before, k := candidates[..last], candidates[last];
      LastPartnerDecides(w, lower, t, organization, owner, before, identifier);
      var v := AutoConfigure(w, lower, t, organization, owner, before).0;
      assert candidates == before + [k];
      if Considered(lower, owner, k) {
        ConsideredDecides(w, lower, v, owner, k, organization);
        DecidesStep(lower, owner, t, v, FromPartner(w, v, k.partner, organization, k.approves).0, organization,
                    before, k, identifier);
      } else {
        SkipStep(lower, owner, t, v, organization, before, k, identifier);
      }
    }
  }

  lemma NoCandidates(lower: string -> string, owner: Owner, t: Tables, organization: nat, identifier: string)
    ensures LastDecides(lower, owner, t, t, organization, [], identifier)
  {
  }

  lemma DecidesStep(lower: string -> string, owner: Owner, t: Tables, v: Tables, u: Tables, organization: nat,
                    before: seq<Candidate>, k: Candidate, identifier: string)
    requires LastDecides(lower, owner, t, v, organization, before, identifier) && Considered(lower, owner, k)
    requires if k.partner.composition.value.identifier == identifier
             then if Rejects(k.partner, k.approves) then Kept(u, organization, identifier) == {}
                  else exists c :: Kept(u, organization, identifier) == {c}
             else Kept(u, organization, identifier) == Kept(v, organization, identifier)
    ensures LastDecides(lower, owner, t, u, organization, before + [k], identifier)
  {
    hide Kept, Rejects, AppliesToUser;
    var candidates := before + [k];
    assert candidates[|before|] == k;
    if !For(lower, owner, k, identifier) {
      SkipStep(lower, owner, t, v, organization, before, k, identifier);
    } else {
      assert forall j :: LastFor(lower, owner, candidates, identifier, j) ==> j == |before|;
    }
  }

  /** A partner for another identifier, or not considered, does not matter. */
  lemma SkipStep(lower: string -> string, owner: Owner, t: Tables, v: Tables, organization: nat,
                 before: seq<Candidate>, k: Candidate, identifier: string)
    requires LastDecides(lower, owner, t, v, organization, before, identifier) && !For(lower, owner, k, identifier)
    ensures LastDecides(lower, owner, t, v, organization, before + [k], identifier)
  {
    hide Kept, Rejects, For;
    var candidates := before + [k];
    assert candidates[|before|] == k && forall i :: 0 <= i < |before| ==> candidates[i] == before[i];
    forall j | LastFor(lower, owner, candidates, identifier, j) ensures LastFor(lower, owner, before, identifier, j) {
      assert j < |before|;
    }
  }

  /** Where composition identifiers are pairwise distinct, every returned partner's composition is there
      in the end, whatever was rejected in between. */
  lemma {:induction false} ReturnedCompositionsExist(w: Crypto, lower: string -> string, t: Tables, organization: nat,
        owner: Owner, candidates: seq<Candidate>, j: nat)
    requires KeysDrawn(t) && organization in t.organizations
    requires AutoConfigure(w, lower, t, organization, owner, candidates).1.Ok?
    requires forall i, k | 0 <= i < k < |candidates|
               :: Considered(lower, owner, candidates[i]) && Considered(lower, owner, candidates[k]) ==>
               candidates[i].partner.composition.value.identifier != candidates[k].partner.composition.value.identifier
    requires j in Chosen(lower, owner, candidates)
    ensures j < |candidates| && candidates[j].partner.composition.Some?
    ensures var u := AutoConfigure(w, lower, t, organization, owner, candidates).0;
            exists c :: Kept(u, organization, candidates[j].partner.composition.value.identifier) == {c}
  {
    hide KeysDrawn, AutoConfigure, Kept, AppliesToUser;
    var identifier := candidates[j].partner.composition.value.identifier;
    LastPartnerDecides(w, lower, t, organization, owner, candidates, identifier);
    assert LastFor(lower, owner, candidates, identifier, j);
  }

  // ---- As they run ----------------------------------------------------------------------------------------------

  /** `create_composition_from_partner`. */
  method CreateCompositionFromPartner(db: Database, partner: Partner, organization: nat,
                                      approves: bool) returns (r: Result<nat, Error>)
    requires organization in db.tables.organizations && KeysDrawn(db.tables)
    modifies db
    ensures (db.tables, r) == FromPartner(db.w, old(db.tables), partner, organization, approves)
  {
    hide KeysDrawn, Apply, Delete, Follows;
    if partner.composition.None? {
      return Err(NoConfiguration);
    }
    ghost var t := db.tables;
    r := CreateCompositionFromManifest(db, partner.composition.value, organization);
    AtomicIs(t, db.tables, r, Apply(db.w, t, partner.composition.value, organization));
    if r.Ok? && partner.hook && !approves {
      DeleteComposition(db, r.value);
      return Err(Rejected);
    }
  }

  lemma AtomicIs(before: Tables, after: Tables, r: Result<nat, Error>, spec: Result<(Tables, nat), Error>)
    requires Atomic(before, after, r, spec)
    ensures match spec
            case Ok((u, id)) => r == Ok(id) && after == u
            case Err(e) => r == Err(e) && after == before
  {
  }

  /** `auto_configure_kommunity_partners`. */
  method AutoConfigureKommunityPartners(db: Database, lower: string -> string, organization: nat, owner: Owner,
                                        candidates: seq<Candidate>)
    returns (r: Result<seq<string>, Error>)
    requires organization in db.tables.organizations && KeysDrawn(db.tables)
    modifies db
    ensures (db.tables, r) == AutoConfigure(db.w, lower, old(db.tables), organization, owner, candidates)
  {
    hide KeysDrawn, FromPartner, AppliesToUser, Kept, Chosen;
    ghost var t := db.tables;
    var applied := [];
    for i := 0 to |candidates|
      invariant db.tables.organizations == t.organizations && KeysDrawn(t)
      invariant AutoConfigure(db.w, lower, t, organization, owner, candidates[..i]) == (db.tables, Ok(applied))
    {
      var k := candidates[i];
      NextCandidate(db.w, lower, t, organization, owner, candidates, i);
      ReturnsTheChosen(db.w, lower, t, organization, owner, candidates[..i]);
      if !k.partner.autoConfigure || !AppliesToUser(lower, k.partner.filter, owner) {
        continue;
      }
      if k.partner.composition.None? {
        continue;
      }
      var c := CreateCompositionFromPartner(db, k.partner, organization, k.approves);
      if c == Err(Rejected) {
        continue;
      }
      if c.Err? {
        Ended(db.w, lower, t, organization, owner, candidates, i + 1);
        return Err(c.error);
      }
      applied := applied + [k.partner.identifier];
    }
    assert candidates[..|candidates|] == candidates;
    return Ok(applied);
  }

  lemma NextCandidate(w: Crypto, lower: string -> string, t: Tables, organization: nat, owner: Owner,
                      candidates: seq<Candidate>, i: nat)
    requires organization in t.organizations && i < |candidates|
    ensures var k, upTo := candidates[i], AutoConfigure(w, lower, t, organization, owner, candidates[..i]);
            AutoConfigure(w, lower, t, organization, owner, candidates[..i + 1])
            == if upTo.1.Err? || !Considered(lower, owner, k) then upTo
               else match FromPartner(w, upTo.0, k.partner, organization, k.approves)
                    case (v, Ok(_)) => (v, Ok(upTo.1.value + [k.partner.identifier]))
                    case (v, Err(Rejected)) => (v, upTo.1)
                    case (v, Err(e)) => (v, Err(e))
  {
    hide FromPartner, Considered;
    var next := candidates[..i + 1];
    assert next[..|next| - 1] == candidates[..i] && next[|next| - 1] == candidates[i];
  }

  /** Once the loop has ended with an error, later partners change nothing. */
  lemma {:induction false} Ended(w: Crypto, lower: string -> string, t: Tables, organization: nat, owner: Owner,
                                 candidates: seq<Candidate>, n: nat)
    requires organization in t.organizations && n <= |candidates|
             && AutoConfigure(w, lower, t, organization, owner, candidates[..n]).1.Err?
    ensures AutoConfigure(w, lower, t, organization, owner, candidates)
            == AutoConfigure(w, lower, t, organization, owner, candidates[..n])
  {
    hide FromPartner, Considered;
    if n == |candidates| {
      assert candidates[..n] == candidates;
    } else {
      assert candidates[..|candidates| - 1][..n] == candidates[..n];
      Ended(w, lower, t, organization, owner, candidates[..|candidates| - 1], n);
    }
  }
}
