/** The services working off a history on the database: what its tables become is that history. */
module HistoryServices {
  import opened Prelude
  import opened Rows
  import opened Cascade
  import opened Compositions
  import opened CompositionKeys
  import opened CompositionLaws
  import opened CompositionServices
  import opened DatabaseServices
  import opened Histories
  import opened Lifecycle
  import opened Partners
  import Server

  lemma NextOf(w: Crypto, t: Tables, h: Happening)
    ensures h.Lived? ==> Next(w, t, h) == Step(w, t, h.event).0
    ensures h.Removed? ==> Next(w, t, h) == if MayDelete(t, h.composition, h.user) then Delete(t, h.composition) else t
    ensures h.Offered? ==> Next(w, t, h) == if h.organization in t.organizations
                                            then FromPartner(w, t, h.partner, h.organization, h.approves).0 else t
  {
    hide Step, Delete, FromPartner, Apply;
  }

  lemma AppliedIs(w: Crypto, before: Tables, after: Tables, r: Result<nat, Error>, m: CompositionManifest,
                  organization: nat)
    requires organization in before.organizations && Atomic(before, after, r, Apply(w, before, m, organization))
    ensures after == Next(w, before, Applied(m, organization))
  {
    hide Apply;
  }

  /** One call: an event of the lifecycle, a manifest, a partner, or the deletion of a composition. */
  method Serve(db: Database, h: Happening)
    requires Whole(db.tables)
    modifies db
    ensures db.tables == Next(db.w, old(db.tables), h)
  {
    hide Whole, Next, Step, Apply, FromPartner, Delete, Atomic, KeysDrawn;
    ghost var t := db.tables;
    NextOf(db.w, t, h);
    WholeKeys(t);
    match h {
      case Lived(e) =>
        var reply := Server.Handle(db, e);
      case Applied(m, organization) =>
        if organization in db.tables.organizations {
          var r := CreateCompositionFromManifest(db, m, organization);
          AppliedIs(db.w, t, db.tables, r, m, organization);
        } else {
          NotApplied(db.w, t, m, organization);
        }
      case Offered(partner, organization, approves) =>
        if organization in db.tables.organizations {
          var r := CreateCompositionFromPartner(db, partner, organization, approves);
        }
      case Removed(c, user) =>
        if MayDelete(db.tables, c, user) {
          DeleteComposition(db, c);
        }
    }
  }

  lemma NotApplied(w: Crypto, t: Tables, m: CompositionManifest, organization: nat)
    requires organization !in t.organizations
    ensures Next(w, t, Applied(m, organization)) == t
  {
    hide Apply;
  }

  lemma WholeKeys(t: Tables)
    requires Whole(t)
    ensures KeysDrawn(t)
  {
    hide KeysDrawn, UniqueKeys, NoDangling;
  }

  /** Any sequence of calls: the tables are those of the history, and stay whole. */
  method ServeAll(db: Database, hs: seq<Happening>)
    requires Whole(db.tables)
    modifies db
    ensures db.tables == History(db.w, old(db.tables), hs) && Whole(db.tables)
  {
    hide Whole, Next;
    ghost var t := db.tables;
    for i := 0 to |hs|
      invariant Whole(db.tables) && History(db.w, db.tables, hs[i..]) == History(db.w, t, hs)
    {
      assert hs[i..][0] == hs[i] && hs[i..][1..] == hs[i + 1..];
      OneMore(db.w, db.tables, hs[i]);
      Serve(db, hs[i]);
    }
  }

  lemma OneMore(w: Crypto, t: Tables, h: Happening)
    requires Whole(t)
    ensures Whole(Next(w, t, h))
  {
    hide Whole, Next;
    HistoryKeepsWhole(w, t, [h]);
    assert [h][1..] == [];
  }
}
