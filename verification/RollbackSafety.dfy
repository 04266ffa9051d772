/** What a rollback may delete, and what refuses it (directory/services.py:1084-1113). */
module RollbackSafety {
  import opened Prelude
  import opened Listings
  import opened Upserts
  import opened ListingLaws
  import opened Imports
  import opened Rollback

  /** The batch made the listing. */
  predicate CreatedBy(touched: map<nat, Touch>, id: nat)
  {
    id in touched && touched[id].Made?
  }

  /** Restoring rows neither adds nor deletes one. */
  lemma {:induction false} RestoresKeepRows(rows: Rows, touched: map<nat, Touch>, ids: seq<nat>, known: Categories)
    ensures var r := RestoreEach(rows, touched, ids, known); r.Ok? ==> r.value.Keys == rows.Keys
    decreases |ids|
  {
    hide Restored, TakenByOther;
    if ids != [] {
      RestoresKeepRows(rows, touched, ids[..|ids| - 1], known);
    }
  }

  /** A restored listing has the source of the projection, or its own where that has none. */
  lemma RestoredSource(x: Listing, l: Listing, known: set<string>)
    ensures Restored(x, Project(l), known).source == if l.source == "" then x.source else l.source
  {
    ProjectMoreMembers(l);
    ProvenanceRestores(l);
    hide Project, ProjectProvenance, Get, TextOf;
  }

  /** A listing the batch made is never deleted once it is claimed or has leads: the whole
      rollback is then refused, for that reason, whatever the other rows. A rollback that
      goes through deletes the listings the batch made and no others. */
  lemma RollbackSparesUsedListings(rows: Rows, touched: map<nat, Touch>, order: seq<nat>, known: Categories,
                                   claimed: set<nat>, withLeads: set<nat>)
    ensures var r := RolledBack(rows, touched, order, known, claimed, withLeads);
      && (r == Err(CreatedListingClaimed) <==> exists id :: CreatedBy(touched, id) && id in claimed)
      && (r == Err(CreatedListingHasLeads) <==>
            (forall id :: CreatedBy(touched, id) ==> id !in claimed) && exists id :: CreatedBy(touched, id) && id in withLeads)
      && (r.Ok? ==> forall id :: id in rows ==> (id in r.value <==> !CreatedBy(touched, id)))
      && (r.Ok? ==> forall id :: id in r.value ==> id in rows)
      && (r.Ok? ==> forall id :: id in rows && (id in claimed || id in withLeads) ==> id in r.value)
  {
    var made := MadeIds(touched);
    assert made * claimed != {} <==> exists id :: CreatedBy(touched, id) && id in claimed by {
      if id :| CreatedBy(touched, id) && id in claimed { assert id in made * claimed; }
      if made * claimed != {} { var id :| id in made * claimed; assert CreatedBy(touched, id); }
    }
    assert made * withLeads != {} <==> exists id :: CreatedBy(touched, id) && id in withLeads by {
      if id :| CreatedBy(touched, id) && id in withLeads { assert id in made * withLeads; }
      if made * withLeads != {} { var id :| id in made * withLeads; assert CreatedBy(touched, id); }
    }
    RestoresKeepRows(rows - made, touched, order, known);
    RestoreRefusals(rows - made, touched, order, known);
    hide RestoreEach;
  }

  lemma {:induction false} RestoreRefusals(rows: Rows, touched: map<nat, Touch>, ids: seq<nat>, known: Categories)
    ensures var r := RestoreEach(rows, touched, ids, known); r.Err? ==> r.error in {RowMissing, SlugConflict}
    decreases |ids|
  {
    hide Restored, TakenByOther;
    if ids != [] {
      RestoreRefusals(rows, touched, ids[..|ids| - 1], known);
    }
  }

  /** Over an import: a listing that existed before the batch is there after the rollback,
      and one the batch made survives exactly when the rollback is refused. */
  lemma ImportedListingSurvives(was: Table, b: Books, order: seq<nat>, known: Categories, claimed: set<nat>, withLeads: set<nat>, id: nat)
    requires Tracks(was, b, known) && id in b.table.rows
    ensures var r := RolledBack(b.table.rows, b.touched, order, known, claimed, withLeads);
      && (id in was.rows && r.Ok? ==> id in r.value)
      && (id !in was.rows && r.Ok? ==> id !in r.value && id !in claimed && id !in withLeads)
  {
    RollbackSparesUsedListings(b.table.rows, b.touched, order, known, claimed, withLeads);
    assert Tracked(was.rows, b.table.rows, b.touched, id);
    hide RolledBack, Healthy, Sound;
  }
}
