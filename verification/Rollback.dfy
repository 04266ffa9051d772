/** Undoing an import batch (directory/services.py:1057-1148) from the record of the
    rows it touched first. */
module Rollback {
  import opened Prelude
  import Patch
  import PatchLaws
  import opened Listings
  import opened Upserts
  import opened ListingLaws
  import opened Imports

  type Rows = map<nat, Listing>

  datatype Refusal = NotRollbackable | PastWindow | CreatedListingClaimed | CreatedListingHasLeads | RowMissing | SlugConflict

  /** The categories each listing type has. */
  type Categories = nat -> set<string>

  function MadeIds(touched: map<nat, Touch>): set<nat>
  {
    set id | id in touched && touched[id].Made?
  }

  function ChangedIds(touched: map<nat, Touch>): set<nat>
  {
    set id | id in touched && touched[id].Changed?
  }

  predicate SameKey(a: Listing, b: Listing)
  {
    a.kind == b.kind && a.slug == b.slug
  }

  predicate TakenByOther(rows: Rows, id: nat, l: Listing)
  {
    exists other :: other in rows && other != id && SameKey(rows[other], l)
  }

  /** The updated rows, restored one after another; a row without a pre-image is
      passed over. */
  function RestoreOne(rows: Rows, touched: map<nat, Touch>, id: nat, known: Categories): Result<Rows, Refusal>
  {
    if id !in touched || !touched[id].Changed? || touched[id].preImage.Null? then Ok(rows)
    else if id !in rows then Err(RowMissing)
    else
      var l := Restored(rows[id], touched[id].preImage, known(rows[id].kind));
      if TakenByOther(rows, id, l) then Err(SlugConflict) else Ok(rows[id := l])
  }

  function RestoreEach(rows: Rows, touched: map<nat, Touch>, ids: seq<nat>, known: Categories): Result<Rows, Refusal>
  {
    if ids == [] then Ok(rows)
    else
      var front := RestoreEach(rows, touched, ids[..|ids| - 1], known);
      if front.Err? then front else RestoreOne(front.value, touched, ids[|ids| - 1], known)
  }

  /** `_do_rollback` on a batch that is completed or failed and keeps its pre-images.
      `order` is the order in which the updated rows come back from the database. */
  function RolledBack(rows: Rows, touched: map<nat, Touch>, order: seq<nat>, known: Categories, claimed: set<nat>, withLeads: set<nat>)
    : Result<Rows, Refusal>
  {
    if MadeIds(touched) * claimed != {} then Err(CreatedListingClaimed)
    else if MadeIds(touched) * withLeads != {} then Err(CreatedListingHasLeads)
    else RestoreEach(rows - MadeIds(touched), touched, order, known)
  }

  /** An order lists every updated row once. */
  ghost predicate Enumerates(order: seq<nat>, ids: set<nat>)
  {
    NoDuplicates(order) && forall id :: id in order <==> id in ids
  }

  // --- what an import keeps for its rollback ----------------------------------------------------

  ghost predicate Healthy(rows: Rows, known: Categories)
  {
    forall id :: id in rows ==> rows[id].source != "" && NoNulls(rows[id]) && rows[id].categories <= known(rows[id].kind)
  }

  /** What an import never changes on a row. */
  predicate SameIdentity(a: Listing, b: Listing)
  {
    a.kind == b.kind && a.media == b.media && a.kept == b.kept
  }

  /** The row `id` against what it was before the batch. */
  ghost predicate Tracked(was: Rows, rows: Rows, touched: map<nat, Touch>, id: nat)
  {
    && (id in was ==>
          && id in rows && SameIdentity(rows[id], was[id])
          && if id in touched then touched[id] == Changed(Project(was[id])) else rows[id] == was[id])
    && (id !in was && id in rows ==> id in touched && touched[id].Made?)
    && (id in touched ==> id in rows)
  }

  ghost predicate Tracks(was: Table, b: Books, known: Categories)
  {
    && Sound(was) && Sound(b.table) && was.next <= b.table.next
    && Healthy(was.rows, known) && Healthy(b.table.rows, known)
    && forall id :: Tracked(was.rows, b.table.rows, b.touched, id)
  }

  /** The row does not give the listing it names by id another slug. */
  predicate KeepsSlug(t: Table, s: Schema, p: Payload)
  {
    p.id.Some? && p.id.value in t.rows && p.slug.Given? ==> s.slug(p.slug.value) == t.rows[p.id.value].slug
  }

  lemma AppliedHealthy(s: Schema, p: Payload, l: Listing, known: Categories)
    requires l.source != "" && NoNulls(l) && l.categories <= known(l.kind) && l.kind == s.kind
    requires known(s.kind) == s.categories && CategoriesKnown(s, p)
    ensures var r := Applied(s, p, l);
      && r.source == l.source && NoNulls(r) && r.categories <= known(r.kind)
      && r.kind == l.kind && r.media == l.media && r.kept == l.kept
  {
  }

  /** One row of an import, and what it keeps of the slug. */
  lemma UpsertEffect(t: Table, s: Schema, p: Payload, known: Categories)
    requires Sound(t) && Healthy(t.rows, known) && known(s.kind) == s.categories
    requires Upsert(t, s, p, OPTIONS).Ok?
    ensures var w := Upsert(t, s, p, OPTIONS).value;
      && w.id in w.table.rows && w.table.rows == t.rows[w.id := w.table.rows[w.id]] && t.next <= w.table.next
      && w.table.rows[w.id].source != "" && NoNulls(w.table.rows[w.id])
      && w.table.rows[w.id].categories <= known(w.table.rows[w.id].kind)
      && (w.outcome.Created? ==> w.id == t.next)
      && (!w.outcome.Created? ==>
            && w.id in t.rows && w.before == Some(Project(t.rows[w.id])) && SameIdentity(w.table.rows[w.id], t.rows[w.id])
            && (KeepsSlug(t, s, p) ==> w.table.rows[w.id].slug == t.rows[w.id].slug))
      && (w.outcome.Unchanged? ==> w.table.rows[w.id] == t.rows[w.id])
  {
    var w := Upsert(t, s, p, OPTIONS).value;
    var l, creating := UpsertWrote(t, s, p, OPTIONS);
    AppliedHealthy(s, p, l, known);
    UpsertOutcome(t, s, p);
    assert Applied(s, p, l).slug == if p.slug.Given? then MatchSlug(s, p) else l.slug;
    if w.outcome.Unchanged? {
      UnchangedIsEqual(l, w.table.rows[w.id]);
    }
    hide Upsert, Applied, Sound, Project, NoNulls;
  }

  lemma UnchangedIsEqual(a: Listing, b: Listing)
    requires NoNulls(a) && NoNulls(b) && a.source == b.source && a.source != ""
    requires a.kind == b.kind && a.media == b.media && a.kept == b.kept
    requires Patch.Diff(Project(a), Project(b)) == []
    ensures a == b
  {
    PatchLaws.DiffEmptyIffSame(Project(a), Project(b));
    SameProjectionSameListing(a, b);
  }

  lemma UpsertOutcome(t: Table, s: Schema, p: Payload)
    requires Upsert(t, s, p, OPTIONS).Ok?
    ensures var w := Upsert(t, s, p, OPTIONS).value; var target := Target(t, s, p);
      && target.Ok? && (w.outcome.Created? <==> target.value.None?)
      && w.table.rows == t.rows[w.id := w.table.rows[w.id]] && t.next <= w.table.next
      && (w.outcome.Created? ==> w.id == t.next)
      && (!w.outcome.Created? ==>
            && target.value == Some(w.id) && w.id in t.rows && w.before == Some(Project(t.rows[w.id]))
            && (w.outcome.Unchanged? <==> Patch.Diff(Project(t.rows[w.id]), Project(w.table.rows[w.id])) == []))
  {
    hide Patch.Diff, Project, Applied, WriteProblem;
  }

  /** What one write does to the row `id` of the record. */
  lemma TrackedStep(was: Rows, rows: Rows, touched: map<nat, Touch>, w: Write, id: nat)
    requires Tracked(was, rows, touched, id) && w.id in w.table.rows && w.table.rows == rows[w.id := w.table.rows[w.id]]
    requires w.outcome.Created? ==> w.id !in rows && w.id !in was
    requires !w.outcome.Created? ==>
      w.id in rows && w.before == Some(Project(rows[w.id])) && SameIdentity(w.table.rows[w.id], rows[w.id])
    requires w.outcome.Unchanged? ==> w.table.rows[w.id] == rows[w.id]
    ensures Tracked(was, w.table.rows, RecordedWrite(touched, w), id)
  {
  }

  lemma HealthyStep(rows: Rows, id: nat, l: Listing, known: Categories)
    requires Healthy(rows, known) && l.source != "" && NoNulls(l) && l.categories <= known(l.kind)
    ensures Healthy(rows[id := l], known)
  {
  }

  lemma ImportedTracks(was: Table, b: Books, s: Schema, p: Payload, known: Categories)
    requires Tracks(was, b, known) && known(s.kind) == s.categories
    ensures Tracks(was, Imported(b, s, p), known)
  {
    var r := Upsert(b.table, s, p, OPTIONS);
    if r.Ok? {
      var w := r.value;
      UpsertSound(b.table, s, p, OPTIONS);
      UpsertEffect(b.table, s, p, known);
      HealthyStep(b.table.rows, w.id, w.table.rows[w.id], known);
      assert w.outcome.Created? ==> w.id !in b.table.rows && w.id !in was.rows;
      hide Upsert, Project, NoNulls, Healthy, Sound, Tracked, SameIdentity, RecordedWrite;
      forall id ensures Tracked(was.rows, w.table.rows, RecordedWrite(b.touched, w), id) {
        TrackedStep(was.rows, b.table.rows, b.touched, w, id);
      }
    }
  }

  ghost predicate Fresh(was: Table, known: Categories)
  {
    Sound(was) && Healthy(was.rows, known)
  }

  lemma {:induction false} AfterTracks(was: Table, job: Job, n: nat, known: Categories)
    requires Fresh(was, known) && known(job.schema.kind) == job.schema.categories && n <= |job.rows|
    ensures Tracks(was, After(Books(was, map[]), job, n), known)
  {
    hide Tracks, Fresh, Imported;
    if n == 0 {
      TracksStart(was, known);
    } else {
      AfterTracks(was, job, n - 1, known);
      ImportedTracks(was, After(Books(was, map[]), job, n - 1), job.schema, job.rows[n - 1], known);
    }
  }

  lemma TracksStart(was: Table, known: Categories)
    requires Fresh(was, known)
    ensures Tracks(was, Books(was, map[]), known)
  {
  }

  /** Only the write of a row moves the books, and by that row. */
  lemma StepBooks(w: World, job: Job, a: Action)
    ensures var r := Step(w, job, a);
      || r.books == w.books
      || (w.batch.cursor < |job.rows| && r.books == Imported(w.books, job.schema, job.rows[w.batch.cursor]))
  {
    hide Upsert, Imported;
  }

  /** Whatever an import met, and wherever it crashed, went on or stopped: every touched
      row's record is its projection before the batch, or that the batch made it, and
      every other row is as it was. */
  lemma {:induction false} RunTracks(was: Table, job: Job, actions: seq<Action>, known: Categories)
    requires Fresh(was, known) && known(job.schema.kind) == job.schema.categories
    ensures Tracks(was, Run(Begun(Books(was, map[])), job, actions).books, known)
    decreases |actions|
  {
    hide Tracks, Fresh, Imported, Step;
    if actions == [] {
      TracksStart(was, known);
    } else {
      var n := |actions| - 1;
      var w := Run(Begun(Books(was, map[])), job, actions[..n]);
      RunTracks(was, job, actions[..n], known);
      StepBooks(w, job, actions[n]);
      if w.batch.cursor < |job.rows| {
        ImportedTracks(was, w.books, job.schema, job.rows[w.batch.cursor], known);
      }
    }
  }
}
