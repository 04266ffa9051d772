/** The resumable CSV import (directory/importing.py:63-284) over the upsert command
    (directory/services.py:782-878). One worker processes a batch row by row; each
    transaction is a step, and the worker may crash between any two of them. The
    run starts once the batch is processing and its row count is written. */
module Imports {
  import opened Prelude
  import opened Json
  import opened Listings
  import opened Upserts

  /** What a batch did to a row first. */
  datatype Touch = Made | Changed(preImage: Json)

  /** The listing rows and the batch's record of the rows it touched. */
  datatype Books = Books(table: Table, touched: map<nat, Touch>)

  datatype Job = Job(schema: Schema, rows: seq<Payload>)

  const OPTIONS: Options := Options("csv_import", false, true)

  /** `_record_import_row`: the first touch wins. */
  function Recorded(touched: map<nat, Touch>, id: nat, t: Touch): map<nat, Touch>
  {
    if id in touched then touched else touched[id := t]
  }

  function RecordedWrite(touched: map<nat, Touch>, w: Write): map<nat, Touch>
  {
    match w.outcome
    case Created => Recorded(touched, w.id, Made)
    case Updated => if w.before.Some? then Recorded(touched, w.id, Changed(w.before.value)) else touched
    case Unchanged => touched
  }

  /** The upsert's transaction: the listing and its record commit together. */
  function Imported(b: Books, s: Schema, p: Payload): Books
  {
    var r := Upsert(b.table, s, p, OPTIONS);
    if r.Ok? then Books(r.value.table, RecordedWrite(b.touched, r.value)) else b
  }

  /** The crash-free result of the first `n` rows. */
  function After(b: Books, job: Job, n: nat): Books
    requires n <= |job.rows|
  {
    if n == 0 then b else Imported(After(b, job, n - 1), job.schema, job.rows[n - 1])
  }

  datatype Status = Processing | Completed | Failed

  datatype Tally = CountCreated | CountUpdated | CountSkipped | CountSuppressed | CountError

  /** The batch row: cursor, counters and status. */
  datatype Batch = Batch(status: Status, cursor: nat, created: nat, updated: nat, skipped: nat, suppressed: nat, errors: nat)

  /** Where the worker is. `left` rows remain in its chunk. An unexpected failure is
      counted (`Fatal`) in one transaction and ends the batch (`Failing`) in the next. */
  datatype Phase =
    | Down
    | AtRow(left: nat)
    | Received(left: nat)
    | Written(left: nat, tally: Tally)
    | Settled(left: nat, tally: Tally)
    | Fatal
    | Failing

  /** `applied` holds the rows whose command is logged as applied. */
  datatype World = World(books: Books, applied: set<nat>, batch: Batch, phase: Phase)

  function Sum5(b: Batch): nat
  {
    b.created + b.updated + b.skipped + b.suppressed + b.errors
  }

  /** `_bump`: one counter and the cursor, in one transaction. */
  function Bumped(b: Batch, t: Tally): Batch
  {
    var c := b.(cursor := b.cursor + 1);
    match t
    case CountCreated => c.(created := c.created + 1)
    case CountUpdated => c.(updated := c.updated + 1)
    case CountSkipped => c.(skipped := c.skipped + 1)
    case CountSuppressed => c.(suppressed := c.suppressed + 1)
    case CountError => c.(errors := c.errors + 1)
  }

  function TallyOf(o: Outcome): Tally
  {
    match o case Created => CountCreated case Updated => CountUpdated case Unchanged => CountSkipped
  }

  /** The upsert's transaction, committed or refused. */
  function WriteRow(w: World, job: Job): World
    requires w.phase.Received? && w.batch.cursor < |job.rows|
  {
    var left, p := w.phase.left, job.rows[w.batch.cursor];
    match Upsert(w.books.table, job.schema, p, OPTIONS)
    case Ok(write) => w.(books := Imported(w.books, job.schema, p), phase := Written(left, TallyOf(write.outcome)))
    case Err(Suppressed) => w.(phase := Settled(left, CountSuppressed))
    case Err(Conflict) => w.(phase := Fatal)
    case Err(_) => w.(phase := Settled(left, CountError))
  }

  /** The worker's next transaction. */
  function Next(w: World, job: Job): World
  {
    match w.phase
    case Down => w
    case AtRow(left) =>
      if left > 0 && w.batch.cursor < |job.rows| then
        if w.batch.cursor in w.applied then w.(phase := Settled(left, CountUpdated)) else w.(phase := Received(left))
      else if w.batch.cursor >= |job.rows| then w.(batch := w.batch.(status := Completed), phase := Down)
      else w.(phase := Down)
    case Received(left) => if w.batch.cursor < |job.rows| then WriteRow(w, job) else w
    case Written(left, tally) => w.(applied := w.applied + {w.batch.cursor}, phase := Settled(left, tally))
    case Settled(left, tally) => w.(batch := Bumped(w.batch, tally), phase := AtRow(if left > 0 then left - 1 else 0))
    case Fatal => w.(batch := Bumped(w.batch, CountError), phase := Failing)
    case Failing => w.(batch := w.batch.(status := Failed), phase := Down)
  }

  datatype Action = Claim(limit: nat) | Work | Crash

  /** A claim takes a processing batch that no worker holds; a crash forgets all
      but the database. */
  function Step(w: World, job: Job, a: Action): World
  {
    match a
    case Claim(limit) => if w.phase == Down && w.batch.status == Processing then w.(phase := AtRow(limit)) else w
    case Work => Next(w, job)
    case Crash => w.(phase := Down)
  }

  function Run(w: World, job: Job, actions: seq<Action>): World
    decreases |actions|
  {
    if actions == [] then w else Step(Run(w, job, actions[..|actions| - 1]), job, actions[|actions| - 1])
  }

  function Begun(b: Books): World
  {
    World(b, {}, Batch(Processing, 0, 0, 0, 0, 0, 0), Down)
  }
}
