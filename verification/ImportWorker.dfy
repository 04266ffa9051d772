/** The row loop of an import as it runs: one pass of a worker that is not
    interrupted, proved to be the machine's own run. */
module ImportWorker {
  import opened Prelude
  import opened Upserts
  import opened Imports

  predicate InRow(w: World, job: Job)
  {
    w.phase.AtRow? || w.phase.Down? || w.phase.Failing? || w.batch.cursor < |job.rows|
  }

  function Distance(w: World, job: Job): nat
  {
    (if w.batch.cursor < |job.rows| then 5 * (|job.rows| - w.batch.cursor) else 0)
    + match w.phase case Down => 0 case AtRow(_) => 4 case Received(_) => 3 case Written(_, _) => 2 case Settled(_, _) => 1 case Failing => 1 case Fatal => 0
  }

  /** The machine, stepped until the worker stops. */
  function Pass(w: World, job: Job): (r: World)
    requires InRow(w, job)
    ensures r.phase == Down
    decreases Distance(w, job)
  {
    if w.phase.Down? then w else NextAdvances(w, job); Pass(Next(w, job), job)
  }

  lemma NextAdvances(w: World, job: Job)
    requires InRow(w, job) && !w.phase.Down?
    ensures InRow(Next(w, job), job) && Distance(Next(w, job), job) < Distance(w, job)
  {
  }

  class Worker {
    var books: Books
    var applied: set<nat>
    var batch: Batch

    ghost function View(phase: Phase): World
      reads this
    {
      World(books, applied, batch, phase)
    }

    method Bump(t: Tally)
      modifies this`batch
      ensures batch == Bumped(old(batch), t)
    {
      batch := batch.(cursor := batch.cursor + 1);
      match t
      case CountCreated => batch := batch.(created := batch.created + 1);
      case CountUpdated => batch := batch.(updated := batch.updated + 1);
      case CountSkipped => batch := batch.(skipped := batch.skipped + 1);
      case CountSuppressed => batch := batch.(suppressed := batch.suppressed + 1);
      case CountError => batch := batch.(errors := batch.errors + 1);
    }

    /** One row: replay it, write it, or count its refusal. `fatal` is an
        unexpected failure, which ends the batch. */
    method ProcessRow(job: Job, left: nat) returns (fatal: bool)
      requires batch.cursor < |job.rows| && left > 0
      modifies this
      ensures batch.cursor == old(batch.cursor) + 1 && batch.status == if fatal then Failed else old(batch.status)
      ensures InRow(old(View(AtRow(left))), job) && InRow(View(if fatal then Down else AtRow(left - 1)), job)
      ensures Pass(old(View(AtRow(left))), job) == Pass(View(if fatal then Down else AtRow(left - 1)), job)
    {
      hide Upsert;
      ghost var w0 := View(AtRow(left));
      ghost var w1 := Next(w0, job);
      assert Pass(w0, job) == Pass(w1, job);
      if batch.cursor in applied {
        Bump(CountUpdated);
        assert View(AtRow(left - 1)) == Next(w1, job);
        return false;
      }
      var p := job.rows[batch.cursor];
      ghost var w2 := Next(w1, job);
      assert Pass(w1, job) == Pass(w2, job);
      var r := Upsert(books.table, job.schema, p, OPTIONS);
      fatal := false;
      match r
      case Ok(write) =>
        books := Books(write.table, RecordedWrite(books.touched, write));
        applied := applied + {batch.cursor};
        ghost var w3 := Next(w2, job);
        assert View(Settled(left, TallyOf(write.outcome))) == w3;
        assert Pass(w2, job) == Pass(w3, job);
        Bump(TallyOf(write.outcome));
        assert View(AtRow(left - 1)) == Next(w3, job);
      case Err(Suppressed) =>
        Bump(CountSuppressed);
        assert View(AtRow(left - 1)) == Next(w2, job);
      case Err(Conflict) =>
        Bump(CountError);
        ghost var w3 := Next(w2, job);
        assert View(Failing) == w3 && Pass(w2, job) == Pass(w3, job);
        batch := batch.(status := Failed);
        assert View(Down) == Next(w3, job);
        fatal := true;
      case Err(_) =>
        Bump(CountError);
        assert View(AtRow(left - 1)) == Next(w2, job);
    }

    /** Up to `limit` rows from the cursor; the batch completes when none remain. */
    method ProcessChunk(job: Job, limit: nat) returns (processed: nat, done: bool)
      modifies this
      ensures InRow(old(View(AtRow(limit))), job)
      ensures View(Down) == Pass(old(View(AtRow(limit))), job)
      ensures batch.cursor == old(batch.cursor) + processed
      ensures old(batch.status) == Processing ==> done == (batch.status != Processing)
    {
      hide Next;
      processed := 0;
      ghost var start := View(AtRow(limit));
      while processed < limit && batch.cursor < |job.rows|
        invariant processed <= limit && batch.cursor == old(batch.cursor) + processed
        invariant InRow(start, job) && InRow(View(AtRow(limit - processed)), job)
        invariant Pass(start, job) == Pass(View(AtRow(limit - processed)), job)
        invariant batch.status == old(batch.status)
      {
        var fatal := ProcessRow(job, limit - processed);
        processed := processed + 1;
        if fatal {
          return processed, true;
        }
      }
      LastStep(View(AtRow(limit - processed)), job);
      done := batch.cursor >= |job.rows|;
      if done {
        batch := batch.(status := Completed);
      }
    }
  }

  lemma LastStep(w: World, job: Job)
    requires w.phase.AtRow? && (w.phase.left == 0 || w.batch.cursor >= |job.rows|)
    ensures Pass(w, job) == if w.batch.cursor >= |job.rows| then w.(batch := w.batch.(status := Completed), phase := Down) else w.(phase := Down)
  {
  }
}
