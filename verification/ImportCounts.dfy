/** What the counters of an import count. */
module ImportCounts {
  import opened Prelude
  import opened Listings
  import opened Upserts
  import opened ListingLaws
  import opened Imports
  import opened ImportLaws

  /** A new listing counts as created, a changed one as updated, any other as skipped. */
  function ResultTally(r: Result<Upserts.Write, Failure>): Tally
  {
    match r
    case Ok(w) => if w.outcome.Created? then CountCreated else if w.changes != [] then CountUpdated else CountSkipped
    case Err(Suppressed) => CountSuppressed
    case Err(_) => CountError
  }

  /** How the crash-free run counts row `i`. */
  function RowTally(b: Books, job: Job, i: nat): Tally
    requires i < |job.rows|
  {
    ResultTally(Upsert(After(b, job, i).table, job.schema, job.rows[i], OPTIONS))
  }

  /** How many of the first `n` rows it counts so. */
  function Tallied(b: Books, job: Job, n: nat, t: Tally): nat
    requires n <= |job.rows|
  {
    if n == 0 then 0 else Tallied(b, job, n - 1, t) + if RowTally(b, job, n - 1) == t then 1 else 0
  }

  function CounterOf(b: Batch, t: Tally): nat
  {
    match t
    case CountCreated => b.created
    case CountUpdated => b.updated
    case CountSkipped => b.skipped
    case CountSuppressed => b.suppressed
    case CountError => b.errors
  }

  predicate IsRefusal(t: Tally)
  {
    t == CountSuppressed || t == CountError
  }

  /** A bump adds one to its own counter. */
  lemma BumpCounts(b: Batch, t: Tally, u: Tally)
    ensures CounterOf(Bumped(b, t), u) == CounterOf(b, u) + if t == u then 1 else 0
  {
  }

  // --- with crashes -------------------------------------------------------------------

  /** The refusals so far are counted exactly, and a row in progress will be. */
  ghost predicate RefusalsCounted(b: Books, job: Job, w: World)
  {
    var c := w.batch.cursor;
    && c <= |job.rows|
    && (forall t :: IsRefusal(t) ==> CounterOf(w.batch, t) == Tallied(b, job, c, t))
    && (w.phase.Written? ==> c < |job.rows| && !IsRefusal(w.phase.tally) && !IsRefusal(RowTally(b, job, c)))
    && (w.phase.Settled? ==> c < |job.rows| && (IsRefusal(w.phase.tally) || IsRefusal(RowTally(b, job, c)) ==> w.phase.tally == RowTally(b, job, c)))
    && (c in w.applied ==> c < |job.rows| && !IsRefusal(RowTally(b, job, c)))
  }

  lemma WriteRowTally(w: World, job: Job)
    requires w.phase.Received? && w.batch.cursor < |job.rows|
    requires Upsert(w.books.table, job.schema, job.rows[w.batch.cursor], OPTIONS) != Err(Conflict)
    ensures var r := Upsert(w.books.table, job.schema, job.rows[w.batch.cursor], OPTIONS);
      WriteRow(w, job).phase == if r.Ok? then Written(w.phase.left, ResultTally(r)) else Settled(w.phase.left, ResultTally(r))
  {
    hide Upsert;
    OutcomeByChanges(w.books.table, job.schema, job.rows[w.batch.cursor]);
  }

  lemma OutcomeByChanges(t: Table, s: Schema, p: Payload)
    ensures var r := Upsert(t, s, p, OPTIONS);
      r.Ok? && !r.value.outcome.Created? ==> r.value.outcome == if r.value.changes != [] then Updated else Unchanged
  {
    hide Project, Applied, WriteProblem, Target;
  }

  /** Written again, a row is refused in the same way or not at all. */
  lemma RedoTally(at: Books, s: Schema, p: Payload)
    requires Sound(at.table) && Upsert(at.table, s, p, OPTIONS) != Err(Conflict)
    requires Upsert(at.table, s, p, OPTIONS).Ok? ==> Addresses(s, p)
    ensures var first, again := Upsert(at.table, s, p, OPTIONS), Upsert(Imported(at, s, p).table, s, p, OPTIONS);
      (first.Ok? <==> again.Ok?) && (first.Err? ==> again == first)
  {
    hide Upsert, Sound, MatchSlug, Project;
    if Upsert(at.table, s, p, OPTIONS).Ok? {
      UpsertAgain(at.table, s, p, OPTIONS);
    }
  }

  lemma OkIsNoRefusal(r: Result<Upserts.Write, Failure>)
    ensures IsRefusal(ResultTally(r)) <==> r.Err?
  {
  }

  lemma RowKeepsItsRefusal(b: Books, job: Job, w: World)
    requires Sound(b.table) && Addressed(b, job) && Expected(b, job) && Consistent(b, job, w) && w.phase.Received?
    ensures var c, r := w.batch.cursor, WriteRow(w, job);
      && (r.phase.Written? ==> !IsRefusal(r.phase.tally) && !IsRefusal(RowTally(b, job, c)))
      && (r.phase.Settled? ==> r.phase.tally == RowTally(b, job, c))
      && (w.books == After(b, job, c) && r.phase.Written? ==> r.phase.tally == RowTally(b, job, c))
  {
    var c := w.batch.cursor;
    var p, at := job.rows[c], After(b, job, c);
    AfterSound(b, job, c);
    RowLands(b, job, w.books, c);
    assert Upsert(at.table, job.schema, p, OPTIONS).Ok? ==> Addresses(job.schema, p);
    assert Upsert(at.table, job.schema, p, OPTIONS) != Err(Conflict);
    assert After(b, job, c + 1) == Imported(at, job.schema, p);
    hide Upsert, Sound, MatchSlug, Addressed, Expected, After, Imported, WriteRow, ResultTally, IsRefusal;
    WriteRowTally(w, job);
    RedoTally(at, job.schema, p);
    OkIsNoRefusal(Upsert(at.table, job.schema, p, OPTIONS));
    OkIsNoRefusal(Upsert(w.books.table, job.schema, p, OPTIONS));
  }

  lemma WriteCountsRefusals(b: Books, job: Job, w: World)
    requires Sound(b.table) && Addressed(b, job) && Expected(b, job) && Consistent(b, job, w) && RefusalsCounted(b, job, w)
    requires w.phase.Received?
    ensures RefusalsCounted(b, job, WriteRow(w, job))
  {
    hide Upsert, After, Sound, Addressed, Expected, RowTally, WriteRow, Tallied;
    RowKeepsItsRefusal(b, job, w);
    RowLands(b, job, w.books, w.batch.cursor);
    WriteRowShape(w, job);
  }

  lemma BumpCountsRefusals(b: Books, job: Job, w: World)
    requires Consistent(b, job, w) && RefusalsCounted(b, job, w) && w.phase.Settled?
    ensures RefusalsCounted(b, job, Next(w, job))
  {
    hide Upsert, After, RowTally, CounterOf;
    var n := Next(w, job);
    assert n.batch.cursor == w.batch.cursor + 1 && n.batch.cursor !in n.applied;
    forall t | IsRefusal(t) ensures CounterOf(n.batch, t) == Tallied(b, job, n.batch.cursor, t) {
      BumpCounts(w.batch, w.phase.tally, t);
    }
  }

  lemma StepCountsRefusals(b: Books, job: Job, w: World, a: Action)
    requires Sound(b.table) && Addressed(b, job) && Expected(b, job) && Consistent(b, job, w) && RefusalsCounted(b, job, w)
    ensures RefusalsCounted(b, job, Step(w, job, a))
  {
    hide Sound, Addressed, Expected, After, Upsert, RowTally, WriteRow, CounterOf, Tallied;
    if a == Work && w.phase.Received? {
      WriteCountsRefusals(b, job, w);
    } else if a == Work && w.phase.Settled? {
      BumpCountsRefusals(b, job, w);
    } else if a == Work {
      SameCounters(w, Step(w, job, a));
    }
  }

  lemma {:induction false} RunCountsRefusals(b: Books, job: Job, actions: seq<Action>)
    requires Sound(b.table) && Addressed(b, job) && Expected(b, job)
    ensures RefusalsCounted(b, job, Run(Begun(b), job, actions))
    decreases |actions|
  {
    hide Sound, Addressed, Expected, Consistent, Step, RowTally;
    if actions != [] {
      hide RefusalsCounted;
      var front := actions[..|actions| - 1];
      RunCountsRefusals(b, job, front);
      CrashEquivalence(b, job, front);
      StepCountsRefusals(b, job, Run(Begun(b), job, front), actions[|actions| - 1]);
    }
  }

  /** Whatever crashes, the error and suppressed counters are those of the crash-free
      run, and the other three add up to the rows it wrote. */
  lemma RefusalsExact(b: Books, job: Job, actions: seq<Action>)
    requires Sound(b.table) && Addressed(b, job) && Expected(b, job)
    ensures var w := Run(Begun(b), job, actions).batch;
      && w.cursor <= |job.rows|
      && w.errors == Tallied(b, job, w.cursor, CountError) && w.suppressed == Tallied(b, job, w.cursor, CountSuppressed)
      && w.created + w.updated + w.skipped + w.errors + w.suppressed == w.cursor
  {
    CrashEquivalence(b, job, actions);
    RunCountsRefusals(b, job, actions);
    hide Run, After, Sound, Addressed, Expected, Tallied;
    var w := Run(Begun(b), job, actions).batch;
    assert IsRefusal(CountError) && CounterOf(w, CountError) == w.errors;
    assert IsRefusal(CountSuppressed) && CounterOf(w, CountSuppressed) == w.suppressed;
  }

  // --- without crashes -----------------------------------------------------------------

  ghost predicate Clean(b: Books, job: Job, w: World)
  {
    var c := w.batch.cursor;
    && (forall t :: CounterOf(w.batch, t) == if c <= |job.rows| then Tallied(b, job, c, t) else 0)
    && (w.phase.Down? || w.phase.AtRow? || w.phase.Received? ==> c <= |job.rows| && w.books == After(b, job, c))
    && (w.phase.Written? || w.phase.Settled? ==> c < |job.rows| && w.phase.tally == RowTally(b, job, c))
    && (forall n :: n in w.applied ==> n < c || (n == c && w.phase.Settled?))
  }

  lemma WriteClean(b: Books, job: Job, w: World)
    requires Sound(b.table) && Addressed(b, job) && Expected(b, job) && Consistent(b, job, w) && Clean(b, job, w)
    requires w.phase.Received?
    ensures Clean(b, job, WriteRow(w, job))
  {
    hide Upsert, After, Sound, Addressed, Expected, RowTally, WriteRow, Tallied;
    RowKeepsItsRefusal(b, job, w);
    RowLands(b, job, w.books, w.batch.cursor);
    WriteRowShape(w, job);
  }

  lemma BumpClean(b: Books, job: Job, w: World)
    requires Consistent(b, job, w) && Clean(b, job, w) && w.phase.Settled?
    ensures Clean(b, job, Next(w, job))
  {
    hide Upsert, After, RowTally, CounterOf, Tallied;
    var n := Next(w, job);
    assert n.batch.cursor == w.batch.cursor + 1;
    forall t ensures CounterOf(n.batch, t) == Tallied(b, job, n.batch.cursor, t) {
      BumpCounts(w.batch, w.phase.tally, t);
      TalliedStep(b, job, w.batch.cursor, t);
    }
  }

  lemma TalliedStep(b: Books, job: Job, n: nat, t: Tally)
    requires n < |job.rows|
    ensures Tallied(b, job, n + 1, t) == Tallied(b, job, n, t) + if RowTally(b, job, n) == t then 1 else 0
  {
  }

  lemma StepClean(b: Books, job: Job, w: World, a: Action)
    requires Sound(b.table) && Addressed(b, job) && Expected(b, job) && Consistent(b, job, w) && Clean(b, job, w) && a != Crash
    ensures Clean(b, job, Step(w, job, a))
  {
    hide Sound, Addressed, Expected, After, Upsert, RowTally, WriteRow, CounterOf, Tallied;
    if a == Work && w.phase.Received? {
      WriteClean(b, job, w);
    } else if a == Work && w.phase.Settled? {
      BumpClean(b, job, w);
    } else if a == Work {
      SameCounters(w, Step(w, job, a));
    }
  }

  lemma SameCounters(w: World, n: World)
    requires n.batch == w.batch.(status := n.batch.status)
    ensures forall t :: CounterOf(n.batch, t) == CounterOf(w.batch, t)
  {
  }

  lemma BegunClean(b: Books, job: Job)
    ensures Clean(b, job, Begun(b))
  {
    assert After(b, job, 0) == b;
    hide After;
  }

  /** Without crashes every counter counts exactly the rows of its own outcome, over
      any number of passes. */
  lemma {:induction false} CountersExact(b: Books, job: Job, actions: seq<Action>)
    requires Sound(b.table) && Addressed(b, job) && Expected(b, job) && Crash !in actions
    ensures Clean(b, job, Run(Begun(b), job, actions))
    decreases |actions|
  {
    hide Sound, Addressed, Expected, Consistent, Step, Clean;
    if actions == [] {
      BegunClean(b, job);
    } else {
      var front := actions[..|actions| - 1];
      CountersExact(b, job, front);
      CrashEquivalence(b, job, front);
      StepClean(b, job, Run(Begun(b), job, front), actions[|actions| - 1]);
    }
  }

  /** A listing an import makes carries its source and was not suppressed; one it
      changes keeps the source it had. */
  lemma ImportMarksWhatItMakes(b: Books, s: Schema, p: Payload)
    requires Sound(b.table) && Upsert(b.table, s, p, OPTIONS).Ok?
    ensures var id := Upsert(b.table, s, p, OPTIONS).value.id; var rows := Imported(b, s, p).table.rows;
      && id in rows
      && (if id in b.table.rows then rows[id].source == b.table.rows[id].source
          else rows[id].source == "csv_import" && !s.suppressed(p))
  {
    var l, creating := UpsertWrote(b.table, s, p, OPTIONS);
    assert Applied(s, p, l).source == l.source;
    hide Upsert, Applied, Acceptable, CategoriesKnown;
  }

  /** A row whose command was already applied counts as updated, and is not written again. */
  lemma ReplayCountsAsUpdated(w: World, job: Job)
    requires w.phase.AtRow? && w.phase.left > 0 && w.batch.cursor < |job.rows| && w.batch.cursor in w.applied
    ensures var after := Next(Next(w, job), job);
      && after.books == w.books && after.applied == w.applied
      && after.batch == w.batch.(updated := w.batch.updated + 1, cursor := w.batch.cursor + 1)
  {
  }
}
