/** A rollback gives back exactly the rows there were, or is refused for a clash of
    slugs; the clash is stated beforehand. */
module RollbackLaws {
  import opened Prelude
  import Patch
  import PatchLaws
  import opened Listings
  import opened Upserts
  import opened ListingLaws
  import opened Imports
  import opened Rollback

  // --- rolling back -----------------------------------------------------------------------------

  /** A row still to be restored holds the slug that an earlier one gets back. */
  predicate Clash(was: Rows, left: Rows, order: seq<nat>, i: int, j: int)
  {
    && 0 <= i < j < |order| && order[i] in was && order[j] in left
    && SameKey(left[order[j]], was[order[i]])
  }

  ghost predicate ClashAt(was: Rows, left: Rows, order: seq<nat>, i: int)
  {
    exists j :: Clash(was, left, order, i, j)
  }

  /** What to check before a rollback in this order. */
  ghost predicate ClashFree(was: Rows, left: Rows, order: seq<nat>)
  {
    forall i :: 0 <= i < |order| ==> !ClashAt(was, left, order, i)
  }

  /** The rows of `done` as they were, the others as the import left them. */
  function Half(was: Rows, left: Rows, done: seq<nat>): Rows
    requires was.Keys == left.Keys
  {
    map id | id in was :: if id in done then was[id] else left[id]
  }

  /** What a rollback starts from, once the created rows are deleted. */
  ghost predicate Undoing(was: Table, left: Rows, touched: map<nat, Touch>, order: seq<nat>, known: Categories)
  {
    && Fresh(was, known) && was.rows.Keys == left.Keys && NoDuplicates(order)
    && (forall id :: id in was.rows ==> SameIdentity(left[id], was.rows[id]) && (id in order || left[id] == was.rows[id]))
    && (forall i :: 0 <= i < |order| ==>
          order[i] in was.rows && order[i] in touched && touched[order[i]] == Changed(Project(was.rows[order[i]])))
  }

  /** Of the rows already restored or never changed, none has another's slug. */
  lemma SettledRowsApart(was: Table, left: Rows, order: seq<nat>, n: nat, other: nat)
    requires Sound(was) && was.rows.Keys == left.Keys && n < |order| && order[n] in was.rows && other in was.rows && other != order[n]
    requires other in order[..n] || left[other] == was.rows[other]
    ensures !SameKey(Half(was.rows, left, order[..n])[other], was.rows[order[n]])
  {
  }

  lemma TakenClashes(was: Table, left: Rows, order: seq<nat>, n: nat)
    requires Sound(was) && was.rows.Keys == left.Keys && n < |order| && order[n] in was.rows
    requires forall x :: x in was.rows ==> x in order || left[x] == was.rows[x]
    requires TakenByOther(Half(was.rows, left, order[..n]), order[n], was.rows[order[n]])
    ensures ClashAt(was.rows, left, order, n)
  {
    hide Sound, SameKey;
    var id, half := order[n], Half(was.rows, left, order[..n]);
    var other :| other in half && other != id && SameKey(half[other], was.rows[id]);
    if other in order[..n] || other !in order {
      SettledRowsApart(was, left, order, n, other);
    }
    assert forall k :: 0 <= k < n ==> order[k] in order[..n];
    var j :| 0 <= j < |order| && order[j] == other;
    assert Clash(was.rows, left, order, n, j);
  }

  lemma ClashTakes(was: Table, left: Rows, touched: map<nat, Touch>, order: seq<nat>, known: Categories, n: nat)
    requires Undoing(was, left, touched, order, known) && n < |order| && ClashAt(was.rows, left, order, n)
    ensures TakenByOther(Half(was.rows, left, order[..n]), order[n], was.rows[order[n]])
  {
    var j :| Clash(was.rows, left, order, n, j);
    assert order[j] != order[n] && order[j] !in order[..n];
    hide Undoing, Sound, Project;
    assert Half(was.rows, left, order[..n])[order[j]] == left[order[j]];
  }

  /** The slug a row gets back is taken exactly when one still to be restored has it. */
  lemma TakenIffClash(was: Table, left: Rows, touched: map<nat, Touch>, order: seq<nat>, known: Categories, n: nat)
    requires Undoing(was, left, touched, order, known) && n < |order|
    ensures was.rows.Keys == left.Keys && order[n] in was.rows
    ensures TakenByOther(Half(was.rows, left, order[..n]), order[n], was.rows[order[n]]) <==> ClashAt(was.rows, left, order, n)
  {
    assert was.rows.Keys == left.Keys && order[n] in was.rows && Sound(was);
    assert forall x :: x in was.rows ==> x in order || left[x] == was.rows[x];
    hide Undoing, TakenByOther, ClashAt, Half, Sound;
    if TakenByOther(Half(was.rows, left, order[..n]), order[n], was.rows[order[n]]) {
      TakenClashes(was, left, order, n);
    } else if ClashAt(was.rows, left, order, n) {
      ClashTakes(was, left, touched, order, known, n);
    }
  }

  lemma RestoreOneResult(rows: Rows, touched: map<nat, Touch>, id: nat, known: Categories, l: Listing)
    requires id in touched && touched[id].Changed? && !touched[id].preImage.Null? && id in rows
    requires Restored(rows[id], touched[id].preImage, known(rows[id].kind)) == l
    ensures RestoreOne(rows, touched, id, known) == if TakenByOther(rows, id, l) then Err(SlugConflict) else Ok(rows[id := l])
  {
    hide Restored, TakenByOther;
  }

  lemma HalfStep(was: Rows, left: Rows, order: seq<nat>, n: nat)
    requires was.Keys == left.Keys && n < |order| && order[n] in was
    ensures Half(was, left, order[..n])[order[n] := was[order[n]]] == Half(was, left, order[..n + 1])
  {
    assert order[..n + 1] == order[..n] + [order[n]];
  }

  /** The row restored from its pre-image is the row there was. */
  lemma HalfRestores(was: Table, left: Rows, touched: map<nat, Touch>, order: seq<nat>, known: Categories, n: nat)
    requires Undoing(was, left, touched, order, known) && n < |order|
    ensures var id, half := order[n], Half(was.rows, left, order[..n]);
      && id in half && touched[id] == Changed(Project(was.rows[id])) && !Project(was.rows[id]).Null?
      && Restored(half[id], Project(was.rows[id]), known(half[id].kind)) == was.rows[id]
  {
    var id, half := order[n], Half(was.rows, left, order[..n]);
    var l := was.rows[id];
    assert half[id].kind == l.kind && half[id].media == l.media && half[id].kept == l.kept;
    assert l.source != "" && l.categories <= known(l.kind) && !Project(l).Null?;
    hide Project, Restored;
    RestoreInvertsProject(half[id], l, known(l.kind));
  }

  lemma RestoreOneExact(was: Table, left: Rows, touched: map<nat, Touch>, order: seq<nat>, known: Categories, n: nat)
    requires was.rows.Keys == left.Keys && Undoing(was, left, touched, order, known) && n < |order|
    ensures RestoreOne(Half(was.rows, left, order[..n]), touched, order[n], known)
      == if ClashAt(was.rows, left, order, n) then Err(SlugConflict) else Ok(Half(was.rows, left, order[..n + 1]))
  {
    assert was.rows.Keys == left.Keys && order[n] in was.rows && order[n] in touched;
    hide *;
    TakenIffClash(was, left, touched, order, known, n);
    HalfRestores(was, left, touched, order, known, n);
    HalfStep(was.rows, left, order, n);
    RestoreOneResult(Half(was.rows, left, order[..n]), touched, order[n], known, was.rows[order[n]]);
  }

  ghost predicate ClashBefore(was: Rows, left: Rows, order: seq<nat>, n: nat)
  {
    exists i :: 0 <= i < n && ClashAt(was, left, order, i)
  }

  lemma NothingRestored(was: Rows, left: Rows, touched: map<nat, Touch>, order: seq<nat>, known: Categories)
    requires was.Keys == left.Keys
    ensures RestoreEach(left, touched, order[..0], known) == Ok(Half(was, left, order[..0])) && !ClashBefore(was, left, order, 0)
  {
    assert Half(was, left, []) == left;
  }

  lemma RestoreEachSnoc(left: Rows, touched: map<nat, Touch>, order: seq<nat>, n: nat, known: Categories)
    requires n < |order|
    ensures var front := RestoreEach(left, touched, order[..n], known);
      RestoreEach(left, touched, order[..n + 1], known) == if front.Err? then front else RestoreOne(front.value, touched, order[n], known)
  {
    hide RestoreOne;
    assert order[..n + 1][..n] == order[..n];
  }

  lemma ClashBeforeSnoc(was: Rows, left: Rows, order: seq<nat>, n: nat)
    ensures ClashBefore(was, left, order, n + 1) <==> ClashBefore(was, left, order, n) || ClashAt(was, left, order, n)
  {
    hide ClashAt;
  }

  lemma {:induction false} RestoreEachExact(was: Table, left: Rows, touched: map<nat, Touch>, order: seq<nat>, known: Categories, n: nat)
    requires was.rows.Keys == left.Keys && Undoing(was, left, touched, order, known) && n <= |order|
    ensures RestoreEach(left, touched, order[..n], known)
      == if ClashBefore(was.rows, left, order, n) then Err(SlugConflict) else Ok(Half(was.rows, left, order[..n]))
    decreases n
  {
    hide *;
    if n == 0 {
      NothingRestored(was.rows, left, touched, order, known);
    } else {
      RestoreEachExact(was, left, touched, order, known, n - 1);
      RestoreOneExact(was, left, touched, order, known, n - 1);
      RestoreEachSnoc(left, touched, order, n - 1, known);
      ClashBeforeSnoc(was.rows, left, order, n - 1);
    }
  }

  /** Deleting the created rows of a tracked import leaves the rows to undo. */
  lemma TrackedUndoing(was: Table, b: Books, order: seq<nat>, known: Categories)
    requires Tracks(was, b, known) && Enumerates(order, ChangedIds(b.touched))
    ensures Undoing(was, b.table.rows - MadeIds(b.touched), b.touched, order, known)
  {
    var left := b.table.rows - MadeIds(b.touched);
    hide Project, NoNulls, Healthy, Sound;
    forall id ensures id in left <==> id in was.rows {
      assert Tracked(was.rows, b.table.rows, b.touched, id);
    }
    forall id | id in was.rows ensures SameIdentity(left[id], was.rows[id]) && (id in order || left[id] == was.rows[id]) {
      assert Tracked(was.rows, b.table.rows, b.touched, id);
    }
    forall i | 0 <= i < |order|
      ensures order[i] in was.rows && order[i] in b.touched && b.touched[order[i]] == Changed(Project(was.rows[order[i]]))
    {
      assert order[i] in order && Tracked(was.rows, b.table.rows, b.touched, order[i]);
    }
  }

  lemma SameClashes(was: Table, b: Books, order: seq<nat>, known: Categories, i: int, j: int)
    requires Undoing(was, b.table.rows - MadeIds(b.touched), b.touched, order, known)
    ensures Clash(was.rows, b.table.rows - MadeIds(b.touched), order, i, j) <==> Clash(was.rows, b.table.rows, order, i, j)
  {
    hide Project, Fresh;
  }

  /** Rolling back an import, whatever its rows renamed: it gives back exactly the rows
      there were, or, exactly when two rows clash in the order of the restores, it is
      refused. No created row may carry a claim or a lead. */
  lemma RollbackExact(was: Table, b: Books, order: seq<nat>, known: Categories, claimed: set<nat>, withLeads: set<nat>)
    requires Tracks(was, b, known) && Enumerates(order, ChangedIds(b.touched))
    requires MadeIds(b.touched) * claimed == {} && MadeIds(b.touched) * withLeads == {}
    ensures RolledBack(b.table.rows, b.touched, order, known, claimed, withLeads)
      == if ClashFree(was.rows, b.table.rows, order) then Ok(was.rows) else Err(SlugConflict)
  {
    var left := b.table.rows - MadeIds(b.touched);
    TrackedUndoing(was, b, order, known);
    RestoreEachExact(was, left, b.touched, order, known, |order|);
    assert order[..|order|] == order;
    AllRestored(was, left, b.touched, order, known);
    hide Tracks, Undoing, Half, RestoreEach, Enumerates, Clash;
    forall i ensures ClashAt(was.rows, left, order, i) <==> ClashAt(was.rows, b.table.rows, order, i) {
      forall j ensures Clash(was.rows, left, order, i, j) <==> Clash(was.rows, b.table.rows, order, i, j) {
        SameClashes(was, b, order, known, i, j);
      }
    }
  }

  lemma AllRestored(was: Table, left: Rows, touched: map<nat, Touch>, order: seq<nat>, known: Categories)
    requires Undoing(was, left, touched, order, known)
    ensures Half(was.rows, left, order) == was.rows
  {
    hide Project, Fresh;
  }

  /** Rows that kept their slugs never clash. */
  lemma KeptSlugsNeverClash(was: Table, rows: Rows, order: seq<nat>)
    requires Sound(was) && NoDuplicates(order) && forall i :: 0 <= i < |order| ==> order[i] in was.rows
    requires forall id :: id in was.rows ==> id in rows && SameKey(rows[id], was.rows[id])
    ensures ClashFree(was.rows, rows, order)
  {
  }

  /** Two rows that swapped slugs clash in every order. */
  lemma SwappedSlugsClash(was: Rows, rows: Rows, order: seq<nat>, x: nat, y: nat)
    requires x in was && y in was && x in rows && y in rows && x != y && x in order && y in order
    requires SameKey(rows[x], was[y]) && SameKey(rows[y], was[x])
    ensures !ClashFree(was, rows, order)
  {
    var i :| 0 <= i < |order| && order[i] == x;
    var j :| 0 <= j < |order| && order[j] == y;
    assert if i < j then Clash(was, rows, order, i, j) else Clash(was, rows, order, j, i);
    assert ClashAt(was, rows, order, if i < j then i else j);
  }

  // --- stacks of batches ----------------------------------------------------------------------------

  /** A job and what happened while it ran: claims, steps and crashes in any order. It
      may have completed, failed, or gone on past a failure. */
  datatype Import = Import(job: Job, actions: seq<Action>)

  /** The listings and the record such an import left. */
  function Left(t: Table, i: Import): Books
  {
    Run(Begun(Books(t, map[])), i.job, i.actions).books
  }

  /** The table after running the imports one after another. */
  function ImportStack(t: Table, imports: seq<Import>): Table
  {
    if imports == [] then t else Left(ImportStack(t, imports[..|imports| - 1]), imports[|imports| - 1]).table
  }

  /** What the last of them recorded. */
  function LastTouched(t: Table, imports: seq<Import>): map<nat, Touch>
    requires imports != []
  {
    Left(ImportStack(t, imports[..|imports| - 1]), imports[|imports| - 1]).touched
  }

  /** Each import's updated rows come back in some order, and no listing it created has
      a claim or a lead. */
  ghost predicate Undoable(t: Table, imports: seq<Import>, orders: seq<seq<nat>>, claimed: set<nat>, withLeads: set<nat>)
  {
    && |orders| == |imports|
    && forall i :: 0 < i <= |imports| ==>
         var touched := LastTouched(t, imports[..i]);
         && Enumerates(orders[i - 1], ChangedIds(touched))
         && MadeIds(touched) * claimed == {} && MadeIds(touched) * withLeads == {}
  }

  /** The batches undone in reverse order, from the rows `rows`. */
  function UnwindStack(rows: Rows, t: Table, imports: seq<Import>, orders: seq<seq<nat>>, known: Categories,
                       claimed: set<nat>, withLeads: set<nat>): Result<Rows, Refusal>
    requires |orders| == |imports|
    decreases |imports|
  {
    if imports == [] then Ok(rows)
    else
      var n := |imports| - 1;
      var r := RolledBack(rows, LastTouched(t, imports), orders[n], known, claimed, withLeads);
      if r.Err? then r else UnwindStack(r.value, t, imports[..n], orders[..n], known, claimed, withLeads)
  }

  ghost predicate Importable(imports: seq<Import>, known: Categories)
  {
    forall i :: 0 <= i < |imports| ==> known(imports[i].job.schema.kind) == imports[i].job.schema.categories
  }

  lemma {:induction false} StackFresh(t: Table, imports: seq<Import>, known: Categories)
    requires Fresh(t, known) && Importable(imports, known)
    ensures Fresh(ImportStack(t, imports), known)
    decreases |imports|
  {
    if imports != [] {
      var n := |imports| - 1;
      StackFresh(t, imports[..n], known);
      RunTracks(ImportStack(t, imports[..n]), imports[n].job, imports[n].actions, known);
    }
  }

  /** No batch of the stack clashes with what was under it. */
  ghost predicate StackClashFree(t: Table, imports: seq<Import>, orders: seq<seq<nat>>)
    requires |orders| == |imports|
  {
    forall i :: 0 < i <= |imports| ==> LevelClashFree(t, imports[..i], orders[i - 1])
  }

  ghost predicate LevelClashFree(t: Table, imports: seq<Import>, order: seq<nat>)
    requires imports != []
  {
    ClashFree(ImportStack(t, imports[..|imports| - 1]).rows, ImportStack(t, imports).rows, order)
  }

  lemma FrontClashFree(t: Table, imports: seq<Import>, orders: seq<seq<nat>>)
    requires |orders| == |imports| && imports != []
    ensures var n := |imports| - 1;
      StackClashFree(t, imports, orders) <==> StackClashFree(t, imports[..n], orders[..n]) && LevelClashFree(t, imports, orders[n])
  {
    var n := |imports| - 1;
    hide LevelClashFree;
    assert imports[..n + 1] == imports;
    forall i | 0 < i <= n ensures imports[..n][..i] == imports[..i] && orders[..n][i - 1] == orders[i - 1] {
    }
    if StackClashFree(t, imports[..n], orders[..n]) && LevelClashFree(t, imports, orders[n]) {
      forall i | 0 < i <= |imports| ensures LevelClashFree(t, imports[..i], orders[i - 1]) {
        assert i <= n ==> LevelClashFree(t, imports[..n][..i], orders[..n][i - 1]);
      }
    }
    if StackClashFree(t, imports, orders) {
      assert LevelClashFree(t, imports[..n + 1], orders[n]);
      forall i | 0 < i <= n ensures LevelClashFree(t, imports[..n][..i], orders[..n][i - 1]) {
        assert LevelClashFree(t, imports[..i], orders[i - 1]);
      }
    }
  }

  /** Any stack of imports, however each of them ran, rolled back in reverse order, gives
      back exactly the original listing rows; it is refused exactly when some batch
      clashes. */
  lemma {:induction false} RollbackInvertsImports(t: Table, imports: seq<Import>, orders: seq<seq<nat>>, known: Categories,
                                                  claimed: set<nat>, withLeads: set<nat>)
    requires Fresh(t, known) && Importable(imports, known) && Undoable(t, imports, orders, claimed, withLeads)
    ensures UnwindStack(ImportStack(t, imports).rows, t, imports, orders, known, claimed, withLeads)
      == if StackClashFree(t, imports, orders) then Ok(t.rows) else Err(SlugConflict)
    decreases |imports|
  {
    if imports != [] {
      var n := |imports| - 1;
      var front := imports[..n];
      var under := ImportStack(t, front);
      UndoableFront(t, imports, orders, claimed, withLeads);
      StackFresh(t, front, known);
      RunTracks(under, imports[n].job, imports[n].actions, known);
      FrontClashFree(t, imports, orders);
      hide Fresh, Enumerates, Tracks, RolledBack, Run, ClashFree, StackClashFree, Undoable;
      RollbackExact(under, Left(under, imports[n]), orders[n], known, claimed, withLeads);
      RollbackInvertsImports(t, front, orders[..n], known, claimed, withLeads);
    }
  }

  lemma UndoableFront(t: Table, imports: seq<Import>, orders: seq<seq<nat>>, claimed: set<nat>, withLeads: set<nat>)
    requires Undoable(t, imports, orders, claimed, withLeads) && imports != []
    ensures Undoable(t, imports[..|imports| - 1], orders[..|imports| - 1], claimed, withLeads)
    ensures var touched := LastTouched(t, imports);
      && Enumerates(orders[|imports| - 1], ChangedIds(touched))
      && MadeIds(touched) * claimed == {} && MadeIds(touched) * withLeads == {}
  {
    var n := |imports| - 1;
    hide LastTouched, Enumerates;
    assert imports[..n + 1] == imports;
    forall i | 0 < i <= n ensures imports[..n][..i] == imports[..i] && orders[..n][i - 1] == orders[i - 1] {
    }
  }

  // --- imports that rename nothing ---------------------------------------------------------------

  /** No row gives a listing it names by id another slug. Rows matched by slug, and rows
      with an id and no slug, never do. */
  ghost predicate RenamesNothing(t: Table, i: Import)
  {
    forall k :: 0 <= k < |i.actions| ==> RowKeepsSlug(Run(Begun(Books(t, map[])), i.job, i.actions[..k]), i.job)
  }

  predicate RowKeepsSlug(w: World, job: Job)
  {
    w.batch.cursor < |job.rows| ==> KeepsSlug(w.books.table, job.schema, job.rows[w.batch.cursor])
  }

  ghost predicate SlugsKept(was: Rows, rows: Rows)
  {
    forall id :: id in was ==> id in rows && SameKey(rows[id], was[id])
  }

  lemma ImportedKeepsSlugs(was: Rows, b: Books, s: Schema, p: Payload, known: Categories)
    requires Sound(b.table) && Healthy(b.table.rows, known) && known(s.kind) == s.categories
    requires SlugsKept(was, b.table.rows) && KeepsSlug(b.table, s, p)
    ensures SlugsKept(was, Imported(b, s, p).table.rows)
  {
    if Upsert(b.table, s, p, OPTIONS).Ok? {
      UpsertEffect(b.table, s, p, known);
      assert b.table.next !in b.table.rows;
      hide Upsert, Project, NoNulls, Healthy, KeepsSlug;
    }
  }

  lemma OwnSlugsKept(was: Rows)
    ensures SlugsKept(was, was)
  {
  }

  lemma TracksSound(was: Table, b: Books, known: Categories)
    requires Tracks(was, b, known)
    ensures Sound(b.table) && Healthy(b.table.rows, known)
  {
  }

  lemma StepKeepsSlugs(was: Rows, w: World, job: Job, a: Action, known: Categories)
    requires Sound(w.books.table) && Healthy(w.books.table.rows, known) && known(job.schema.kind) == job.schema.categories
    requires SlugsKept(was, w.books.table.rows) && RowKeepsSlug(w, job)
    ensures SlugsKept(was, Step(w, job, a).books.table.rows)
  {
    StepBooks(w, job, a);
    hide Step, Imported, SlugsKept, KeepsSlug, Sound, Healthy;
    if w.batch.cursor < |job.rows| {
      ImportedKeepsSlugs(was, w.books, job.schema, job.rows[w.batch.cursor], known);
    }
  }

  lemma {:induction false} RunKeepsSlugs(was: Table, i: Import, n: nat, known: Categories)
    requires Fresh(was, known) && known(i.job.schema.kind) == i.job.schema.categories && n <= |i.actions|
    requires RenamesNothing(was, i)
    ensures SlugsKept(was.rows, Run(Begun(Books(was, map[])), i.job, i.actions[..n]).books.table.rows)
    decreases n
  {
    hide SlugsKept, RowKeepsSlug, Fresh, Tracks, Sound, Healthy, Step;
    if n == 0 {
      OwnSlugsKept(was.rows);
    } else {
      var w := Run(Begun(Books(was, map[])), i.job, i.actions[..n - 1]);
      RunKeepsSlugs(was, i, n - 1, known);
      RunTracks(was, i.job, i.actions[..n - 1], known);
      TracksSound(was, w.books, known);
      assert i.actions[..n][..n - 1] == i.actions[..n - 1];
      StepKeepsSlugs(was.rows, w, i.job, i.actions[n - 1], known);
    }
  }

  /** An import that renames nothing rolls back in every order, however it ran. */
  lemma RollbackInvertsUnrenamed(was: Table, i: Import, order: seq<nat>, known: Categories, claimed: set<nat>, withLeads: set<nat>)
    requires Fresh(was, known) && known(i.job.schema.kind) == i.job.schema.categories && RenamesNothing(was, i)
    requires var touched := Left(was, i).touched;
      Enumerates(order, ChangedIds(touched)) && MadeIds(touched) * claimed == {} && MadeIds(touched) * withLeads == {}
    ensures RolledBack(Left(was, i).table.rows, Left(was, i).touched, order, known, claimed, withLeads) == Ok(was.rows)
  {
    var b := Left(was, i);
    RunTracks(was, i.job, i.actions, known);
    RunKeepsSlugs(was, i, |i.actions|, known);
    assert i.actions[..|i.actions|] == i.actions;
    TrackedUndoing(was, b, order, known);
    hide Run, Tracks, RolledBack, Project;
    KeptSlugsNeverClash(was, b.table.rows, order);
    RollbackExact(was, b, order, known, claimed, withLeads);
  }

  // --- an import that renames and cannot be rolled back ------------------------------------------

  /** The crash-free result of a whole job. */
  function ImportJob(t: Table, job: Job): Books
  {
    After(Books(t, map[]), job, |job.rows|)
  }

  /** A row that gives the listing `id` the slug `v` and nothing else. */
  function SlugOnly(id: nat, v: Text): Payload
  {
    Payload(false, Some(id), Missing, Given(v), Missing, Missing,
            AddressPayload(Missing, Missing, Missing, Missing, Missing, Missing), Missing, Missing, Missing,
            Missing, Missing, Missing, Missing, Missing, Missing, Missing, Missing)
  }

  lemma AppliedSlugOnly(s: Schema, id: nat, v: Text, l: Listing)
    ensures Applied(s, SlugOnly(id, v), l) == l.(slug := s.slug(v))
    ensures Acceptable(s, SlugOnly(id, v), l.point, false) <==> !s.reserved(v)
    ensures CategoriesKnown(s, SlugOnly(id, v))
  {
  }

  lemma RenameShows(l: Listing, slug: string)
    requires slug != l.slug
    ensures Patch.Diff(Project(l), Project(l.(slug := slug))) != []
  {
    var r := l.(slug := slug);
    PatchLaws.DiffEmptyIffSame(Project(l), Project(r));
    ProjectMembers(l);
    ProjectMembers(r);
    hide Patch.Diff, Project;
    if PatchLaws.SameUpToNull(Project(l), Project(r)) {
      SameLeaves(Project(l), Project(r));
    }
  }

  lemma ImportedRename(b: Books, s: Schema, id: nat, v: Text)
    requires id in b.table.rows && b.table.rows[id].kind == s.kind && !s.reserved(v) && s.text(v) != ""
    requires s.slug(v) != b.table.rows[id].slug && !SlugTaken(b.table, s.kind, s.slug(v), id)
    ensures var l := b.table.rows[id];
      Imported(b, s, SlugOnly(id, v))
        == Books(b.table.(rows := b.table.rows[id := l.(slug := s.slug(v))]), Recorded(b.touched, id, Changed(Project(l))))
  {
    var l := b.table.rows[id];
    AppliedSlugOnly(s, id, v, l);
    RenameShows(l, s.slug(v));
    hide Patch.Diff, Project, Applied, Acceptable, CategoriesKnown, SlugTaken;
    assert Upsert(b.table, s, SlugOnly(id, v), OPTIONS) == Update(b.table, s, SlugOnly(id, v), OPTIONS, id);
  }

  /** Two listings of a type that swap slugs by way of a third. */
  function SwapJob(s: Schema, x: nat, y: nat, slugX: Text, slugY: Text, spare: Text): Job
  {
    Job(s, [SlugOnly(x, spare), SlugOnly(y, slugX), SlugOnly(x, slugY)])
  }

  ghost predicate Swaps(t: Table, s: Schema, x: nat, y: nat, slugX: Text, slugY: Text, spare: Text)
  {
    && x in t.rows && y in t.rows && x != y && t.rows[x].kind == s.kind && t.rows[y].kind == s.kind
    && s.slug(slugX) == t.rows[x].slug && s.slug(slugY) == t.rows[y].slug
    && !s.reserved(slugX) && !s.reserved(slugY) && !s.reserved(spare)
    && s.text(slugX) != "" && s.text(slugY) != "" && s.text(spare) != ""
    && (forall id :: id in t.rows ==> t.rows[id].slug != s.slug(spare))
  }

  lemma SwapFirst(t: Table, s: Schema, x: nat, y: nat, slugX: Text, slugY: Text, spare: Text)
    requires Swaps(t, s, x, y, slugX, slugY, spare)
    ensures Imported(Books(t, map[]), s, SlugOnly(x, spare))
      == Books(t.(rows := t.rows[x := t.rows[x].(slug := s.slug(spare))]), map[x := Changed(Project(t.rows[x]))])
  {
    hide Project, Imported, SlugOnly;
    ImportedRename(Books(t, map[]), s, x, spare);
  }

  lemma SwapSecond(t: Table, s: Schema, x: nat, y: nat, slugX: Text, slugY: Text, spare: Text)
    requires Sound(t) && Swaps(t, s, x, y, slugX, slugY, spare)
    ensures var a, c := t.rows[x], t.rows[y];
      var b := Books(t.(rows := t.rows[x := a.(slug := s.slug(spare))]), map[x := Changed(Project(a))]);
      Imported(b, s, SlugOnly(y, slugX))
        == Books(t.(rows := b.table.rows[y := c.(slug := a.slug)]), b.touched[y := Changed(Project(c))])
  {
    hide Project, Imported, SlugOnly;
    var a, c := t.rows[x], t.rows[y];
    var b := Books(t.(rows := t.rows[x := a.(slug := s.slug(spare))]), map[x := Changed(Project(a))]);
    assert b.table.rows[y] == c && a.slug != c.slug;
    assert !SlugTaken(b.table, s.kind, a.slug, y);
    ImportedRename(b, s, y, slugX);
  }

  lemma SwapThird(t: Table, s: Schema, x: nat, y: nat, slugX: Text, slugY: Text, spare: Text, touched: map<nat, Touch>)
    requires Sound(t) && Swaps(t, s, x, y, slugX, slugY, spare) && x in touched
    ensures var a, c := t.rows[x], t.rows[y];
      var b := Books(t.(rows := t.rows[x := a.(slug := s.slug(spare))][y := c.(slug := a.slug)]), touched);
      Imported(b, s, SlugOnly(x, slugY)) == Books(t.(rows := t.rows[x := a.(slug := c.slug)][y := c.(slug := a.slug)]), touched)
  {
    hide Project, Imported, SlugOnly;
    var a, c := t.rows[x], t.rows[y];
    var b := Books(t.(rows := t.rows[x := a.(slug := s.slug(spare))][y := c.(slug := a.slug)]), touched);
    assert b.table.rows[x] == a.(slug := s.slug(spare));
    assert !SlugTaken(b.table, s.kind, c.slug, x);
    ImportedRename(b, s, x, slugY);
    assert b.table.rows[x := a.(slug := c.slug)] == t.rows[x := a.(slug := c.slug)][y := c.(slug := a.slug)];
  }

  lemma AfterThree(b: Books, job: Job)
    requires |job.rows| == 3
    ensures After(b, job, 3)
      == Imported(Imported(Imported(b, job.schema, job.rows[0]), job.schema, job.rows[1]), job.schema, job.rows[2])
  {
    hide Imported;
    assert After(b, job, 0) == b;
    assert After(b, job, 1) == Imported(b, job.schema, job.rows[0]);
    assert After(b, job, 2) == Imported(After(b, job, 1), job.schema, job.rows[1]);
  }

  lemma SwapLands(t: Table, s: Schema, x: nat, y: nat, slugX: Text, slugY: Text, spare: Text)
    requires Sound(t) && Swaps(t, s, x, y, slugX, slugY, spare)
    ensures var b := ImportJob(t, SwapJob(s, x, y, slugX, slugY, spare));
      var a, c := t.rows[x], t.rows[y];
      && b.table.rows == t.rows[x := a.(slug := c.slug)][y := c.(slug := a.slug)]
      && b.touched == map[x := Changed(Project(a)), y := Changed(Project(c))]
  {
    var a, c := t.rows[x], t.rows[y];
    AfterThree(Books(t, map[]), SwapJob(s, x, y, slugX, slugY, spare));
    SwapFirst(t, s, x, y, slugX, slugY, spare);
    SwapSecond(t, s, x, y, slugX, slugY, spare);
    var touched := map[x := Changed(Project(a))][y := Changed(Project(c))];
    SwapThird(t, s, x, y, slugX, slugY, spare, touched);
    hide Project, Imported, SlugOnly, After, Swaps, Sound;
    assert touched == map[x := Changed(Project(a)), y := Changed(Project(c))];
  }

  lemma SwapSwaps(t: Table, s: Schema, x: nat, y: nat, slugX: Text, slugY: Text, spare: Text, b: Books)
    requires Swaps(t, s, x, y, slugX, slugY, spare)
    requires b.table.rows == t.rows[x := t.rows[x].(slug := t.rows[y].slug)][y := t.rows[y].(slug := t.rows[x].slug)]
    requires b.touched == map[x := Changed(Project(t.rows[x])), y := Changed(Project(t.rows[y]))]
    ensures x in b.table.rows && y in b.table.rows
    ensures SameKey(b.table.rows[x], t.rows[y]) && SameKey(b.table.rows[y], t.rows[x])
    ensures ChangedIds(b.touched) == {x, y} && MadeIds(b.touched) == {}
  {
    hide Project;
  }

  /** Such an import is refused its rollback, in every order of its rows. */
  lemma SwapCannotRollBack(t: Table, s: Schema, x: nat, y: nat, slugX: Text, slugY: Text, spare: Text,
                           order: seq<nat>, known: Categories, claimed: set<nat>, withLeads: set<nat>)
    requires Fresh(t, known) && known(s.kind) == s.categories && Swaps(t, s, x, y, slugX, slugY, spare)
    requires Enumerates(order, {x, y})
    ensures var b := ImportJob(t, SwapJob(s, x, y, slugX, slugY, spare));
      RolledBack(b.table.rows, b.touched, order, known, claimed, withLeads) == Err(SlugConflict)
  {
    var job := SwapJob(s, x, y, slugX, slugY, spare);
    var b := ImportJob(t, job);
    SwapLands(t, s, x, y, slugX, slugY, spare);
    AfterTracks(t, job, 3, known);
    assert x in t.rows && y in t.rows && x != y;
    SwapSwaps(t, s, x, y, slugX, slugY, spare, b);
    assert x in order && y in order;
    hide *;
    SwappedSlugsClash(t.rows, b.table.rows, order, x, y);
    RollbackExact(t, b, order, known, claimed, withLeads);
  }
}
