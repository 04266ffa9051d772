/** Crashes and restarts do not change what an import does. */
module ImportLaws {
  import opened Prelude
  import opened Listings
  import opened Upserts
  import opened ListingLaws
  import opened Imports

  /** The row names its listing by id or by a slug that normalises to something. */
  predicate Addresses(s: Schema, p: Payload)
  {
    p.id.Some? || MatchSlug(s, p) != ""
  }

  /** Each row that the crash-free run writes names its listing. */
  ghost predicate Addressed(b: Books, job: Job)
  {
    forall i :: 0 <= i < |job.rows| && Upsert(After(b, job, i).table, job.schema, job.rows[i], OPTIONS).Ok? ==>
      Addresses(job.schema, job.rows[i])
  }

  /** No row of the crash-free run meets an unexpected failure. */
  ghost predicate Expected(b: Books, job: Job)
  {
    forall i :: 0 <= i < |job.rows| ==>
      Upsert(After(b, job, i).table, job.schema, job.rows[i], OPTIONS) != Err(Conflict)
  }

  lemma ImportedSound(b: Books, s: Schema, p: Payload)
    requires Sound(b.table)
    ensures Sound(Imported(b, s, p).table)
  {
    if Upsert(b.table, s, p, OPTIONS).Ok? {
      UpsertSound(b.table, s, p, OPTIONS);
    }
  }

  lemma {:induction false} AfterSound(b: Books, job: Job, n: nat)
    requires Sound(b.table) && n <= |job.rows|
    ensures Sound(After(b, job, n).table)
  {
    if n > 0 {
      AfterSound(b, job, n - 1);
      ImportedSound(After(b, job, n - 1), job.schema, job.rows[n - 1]);
    }
  }

  /** Processing a row again leaves the listings and the record as they are. */
  lemma ImportedAgain(b: Books, s: Schema, p: Payload)
    requires Sound(b.table) && Upsert(b.table, s, p, OPTIONS) != Err(Conflict)
    requires Upsert(b.table, s, p, OPTIONS).Ok? ==> Addresses(s, p)
    ensures Imported(Imported(b, s, p), s, p) == Imported(b, s, p)
    ensures Upsert(Imported(b, s, p).table, s, p, OPTIONS) != Err(Conflict)
  {
    if Upsert(b.table, s, p, OPTIONS).Ok? {
      UpsertAgain(b.table, s, p, OPTIONS);
    }
    hide Upsert;
  }

  // --- what every step keeps --------------------------------------------------------------

  /** The books stand at the cursor, or one row past it. */
  ghost predicate Consistent(b: Books, job: Job, w: World)
  {
    var c := w.batch.cursor;
    && Sum5(w.batch) == c && c <= |job.rows| && w.batch.status != Failed && !w.phase.Fatal? && !w.phase.Failing?
    && (w.books == After(b, job, c) || (c < |job.rows| && w.books == After(b, job, c + 1)))
    && (w.batch.status == Completed ==> c == |job.rows| && w.phase == Down)
    && (c in w.applied || w.phase.Written? || w.phase.Settled? ==> c < |job.rows| && w.books == After(b, job, c + 1))
    && (w.phase.Received? ==> c < |job.rows|)
    && (forall n :: n in w.applied ==> n <= c)
  }

  /** Writing the row at the cursor, for the first time or again. */
  lemma RowLands(b: Books, job: Job, books: Books, c: nat)
    requires Sound(b.table) && Addressed(b, job) && Expected(b, job) && c < |job.rows|
    requires books == After(b, job, c) || books == After(b, job, c + 1)
    ensures Imported(books, job.schema, job.rows[c]) == After(b, job, c + 1)
    ensures Upsert(books.table, job.schema, job.rows[c], OPTIONS) != Err(Conflict)
  {
    AfterSound(b, job, c);
    assert Upsert(After(b, job, c).table, job.schema, job.rows[c], OPTIONS) != Err(Conflict);
    hide Upsert, Imported, Sound, Addresses, Expected;
    ImportedAgain(After(b, job, c), job.schema, job.rows[c]);
  }

  lemma WriteRowShape(w: World, job: Job)
    requires w.phase.Received? && w.batch.cursor < |job.rows|
    requires Upsert(w.books.table, job.schema, job.rows[w.batch.cursor], OPTIONS) != Err(Conflict)
    ensures var r := WriteRow(w, job);
      && r.batch == w.batch && r.applied == w.applied && (r.phase.Written? || r.phase.Settled?)
      && r.books == Imported(w.books, job.schema, job.rows[w.batch.cursor])
  {
  }

  lemma WriteRowConsistent(b: Books, job: Job, w: World)
    requires Sound(b.table) && Addressed(b, job) && Expected(b, job)
    requires Consistent(b, job, w) && w.phase.Received?
    ensures Consistent(b, job, WriteRow(w, job))
  {
    RowLands(b, job, w.books, w.batch.cursor);
    WriteRowShape(w, job);
    hide Upsert, After, Sound, Addressed, Expected, Imported, WriteRow;
  }

  lemma StepConsistent(b: Books, job: Job, w: World, a: Action)
    requires Sound(b.table) && Addressed(b, job) && Expected(b, job)
    requires Consistent(b, job, w)
    ensures Consistent(b, job, Step(w, job, a))
  {
    hide After, Sound, Addressed, Expected, WriteRow;
    if a == Work && w.phase.Received? {
      WriteRowConsistent(b, job, w);
      hide Consistent;
    }
  }

  /** For any schedule of claims, steps and crashes: the listings are those of the
      crash-free run up to the cursor or one row further, the counters add up to the
      rows processed, and a completed batch has exactly the crash-free listings and
      record of touched rows. */
  lemma {:induction false} CrashEquivalence(b: Books, job: Job, actions: seq<Action>)
    requires Sound(b.table) && Addressed(b, job) && Expected(b, job)
    ensures Consistent(b, job, Run(Begun(b), job, actions))
    ensures var w := Run(Begun(b), job, actions);
      w.batch.status == Completed ==> w.books == After(b, job, |job.rows|) && Sum5(w.batch) == |job.rows|
    decreases |actions|
  {
    hide Consistent, Sound, Addressed, Expected, Step;
    if actions == [] {
      BegunConsistent(b, job);
    } else {
      var w := Run(Begun(b), job, actions[..|actions| - 1]);
      CrashEquivalence(b, job, actions[..|actions| - 1]);
      StepConsistent(b, job, w, actions[|actions| - 1]);
      var next := Step(w, job, actions[|actions| - 1]);
      if next.batch.status == Completed {
        CompletedIsCrashFree(b, job, next);
      }
    }
  }

  lemma BegunConsistent(b: Books, job: Job)
    ensures Consistent(b, job, Begun(b))
  {
    assert After(b, job, 0) == b;
    hide After;
  }

  lemma CompletedIsCrashFree(b: Books, job: Job, w: World)
    requires Consistent(b, job, w) && w.batch.status == Completed
    ensures w.books == After(b, job, |job.rows|) && Sum5(w.batch) == |job.rows|
  {
  }

  // --- passes go on until the batch is complete -------------------------------------------------

  /** What happens next when nothing crashes: a worker that is up works, and a batch that
      no worker holds is claimed for a pass of `limit` rows. */
  function Onward(w: World, limit: nat): Action
  {
    if w.phase.Down? then Claim(limit) else Work
  }

  /** `n` such steps; `limits` gives the size of a pass begun at each of them. */
  function Driven(w: World, job: Job, limits: nat -> nat, n: nat): World
    decreases n
  {
    if n == 0 then w
    else
      var at := Driven(w, job, limits, n - 1);
      Step(at, job, Onward(at, limits(n - 1)))
  }

  ghost function Rank(w: World): nat
  {
    match w.phase
    case AtRow(left) => if left == 0 then 6 else 4
    case Down => 5
    case Received(_) => 3
    case Written(_, _) => 2
    case _ => 1
  }

  /** How many steps can still be needed. */
  ghost function Remaining(w: World, job: Job): nat
    requires w.batch.cursor <= |job.rows|
  {
    if w.batch.status == Processing then 7 * (|job.rows| - w.batch.cursor) + Rank(w) else 0
  }

  lemma OnwardAdvances(b: Books, job: Job, w: World, limit: nat)
    requires Consistent(b, job, w) && limit > 0 && w.batch.status == Processing
    requires Consistent(b, job, Step(w, job, Onward(w, limit)))
    ensures Remaining(Step(w, job, Onward(w, limit)), job) < Remaining(w, job)
  {
    hide After, Upsert;
  }

  lemma CompletedStays(b: Books, job: Job, w: World, limit: nat)
    requires Consistent(b, job, w) && w.batch.status == Completed
    ensures Step(w, job, Onward(w, limit)) == w
  {
    hide After;
  }

  lemma {:induction false} DrivenConsistent(b: Books, job: Job, w: World, limits: nat -> nat, n: nat)
    requires Sound(b.table) && Addressed(b, job) && Expected(b, job) && Consistent(b, job, w)
    ensures Consistent(b, job, Driven(w, job, limits, n))
    decreases n
  {
    hide Sound, Addressed, Expected, Consistent, Step;
    if n > 0 {
      DrivenConsistent(b, job, w, limits, n - 1);
      var at := Driven(w, job, limits, n - 1);
      StepConsistent(b, job, at, Onward(at, limits(n - 1)));
    }
  }

  lemma {:induction false} DrivenAdvances(b: Books, job: Job, w: World, limits: nat -> nat, n: nat)
    requires Sound(b.table) && Addressed(b, job) && Expected(b, job) && Consistent(b, job, w)
    requires forall k :: limits(k) > 0
    ensures var at := Driven(w, job, limits, n);
      Consistent(b, job, at) && (at.batch.status == Completed || Remaining(at, job) + n <= Remaining(w, job))
    decreases n
  {
    hide Sound, Addressed, Expected, After, Step;
    DrivenConsistent(b, job, w, limits, n);
    if n > 0 {
      DrivenAdvances(b, job, w, limits, n - 1);
      var at := Driven(w, job, limits, n - 1);
      if at.batch.status == Completed {
        CompletedStays(b, job, at, limits(n - 1));
      } else {
        OnwardAdvances(b, job, at, limits(n - 1));
      }
    }
  }

  /** After any schedule of claims, steps and crashes, wherever it left the worker,
      passes of any sizes that do not crash complete the batch in a bounded number of
      steps, with the crash-free listings and record. */
  lemma PassesComplete(b: Books, job: Job, actions: seq<Action>, limits: nat -> nat, n: nat)
    requires Sound(b.table) && Addressed(b, job) && Expected(b, job) && forall k :: limits(k) > 0
    requires n > 7 * |job.rows| + 6
    ensures var w := Driven(Run(Begun(b), job, actions), job, limits, n);
      w.batch.status == Completed && w.books == After(b, job, |job.rows|)
  {
    var w := Run(Begun(b), job, actions);
    CrashEquivalence(b, job, actions);
    DrivenAdvances(b, job, w, limits, n);
    var at := Driven(w, job, limits, n);
    hide Sound, Addressed, Expected, After, Run, Driven;
    assert Remaining(w, job) <= 7 * |job.rows| + 6;
    CompletedIsCrashFree(b, job, at);
  }

  // --- the exact condition ------------------------------------------------------------------------

  lemma RunSnoc(w: World, job: Job, front: seq<Action>, a: Action)
    ensures Run(w, job, front + [a]) == Step(Run(w, job, front), job, a)
  {
    hide Step;
    assert (front + [a])[..|front|] == front;
  }

  /** A worker about to process row `i` for the first time, with chunk enough to go on. */
  ghost predicate Ready(b: Books, job: Job, w: World, i: nat)
    requires i <= |job.rows|
  {
    && w.phase.AtRow? && w.phase.left > |job.rows| - i && w.batch.cursor == i && w.batch.status == Processing
    && w.books == After(b, job, i) && forall n :: n in w.applied ==> n < i
  }

  /** An expected row is written or refused, and settled. */
  lemma ReadySettles(b: Books, job: Job, w: World, i: nat)
    requires Expected(b, job) && i < |job.rows| && Ready(b, job, w, i)
    ensures var r := Next(Next(w, job), job);
      && (r.phase.Written? || r.phase.Settled?) && r.phase.left == w.phase.left
      && r.batch == w.batch && r.applied == w.applied && r.books == After(b, job, i + 1)
  {
    assert Upsert(w.books.table, job.schema, job.rows[i], OPTIONS) != Err(Conflict);
    hide Upsert, Expected;
    WriteRowShape(Next(w, job), job);
  }

  /** It takes a ready worker to the next row. */
  lemma ReadyNext(b: Books, job: Job, front: seq<Action>, i: nat) returns (actions: seq<Action>)
    requires Expected(b, job) && i < |job.rows| && Ready(b, job, Run(Begun(b), job, front), i)
    ensures Ready(b, job, Run(Begun(b), job, actions), i + 1)
  {
    var w := Run(Begun(b), job, front);
    ReadySettles(b, job, w, i);
    hide Run, Expected, After, WriteRow;
    RunSnoc(Begun(b), job, front, Work);
    RunSnoc(Begun(b), job, front + [Work], Work);
    actions := front + [Work] + [Work];
    var r := Run(Begun(b), job, actions);
    assert r == Next(Next(w, job), job);
    if r.phase.Written? {
      RunSnoc(Begun(b), job, actions, Work);
      actions := actions + [Work];
    }
    var settled := Run(Begun(b), job, actions);
    SettledBumps(b, job, w, settled, i);
    RunSnoc(Begun(b), job, actions, Work);
    actions := actions + [Work];
  }

  lemma SettledBumps(b: Books, job: Job, w: World, r: World, i: nat)
    requires i < |job.rows| && Ready(b, job, w, i) && r.phase.Settled? && r.phase.left == w.phase.left
    requires r.batch == w.batch && r.applied <= w.applied + {i} && r.books == After(b, job, i + 1)
    ensures Ready(b, job, Next(r, job), i + 1)
  {
    hide After;
  }

  lemma BegunReady(b: Books, job: Job) returns (actions: seq<Action>)
    ensures Ready(b, job, Run(Begun(b), job, actions), 0)
  {
    RunSnoc(Begun(b), job, [], Claim(|job.rows| + 1));
    actions := [] + [Claim(|job.rows| + 1)];
  }

  lemma {:induction false} ReachRow(b: Books, job: Job, i: nat) returns (actions: seq<Action>)
    requires Expected(b, job) && i <= |job.rows|
    ensures Ready(b, job, Run(Begun(b), job, actions), i)
  {
    hide Expected, Ready, Run;
    if i == 0 {
      actions := BegunReady(b, job);
    } else {
      var front := ReachRow(b, job, i - 1);
      actions := ReadyNext(b, job, front, i - 1);
    }
  }

  /** Written, crashed and restarted, a row that does not name its listing conflicts
      with it. */
  lemma RestartConflicts(b: Books, job: Job, w: World, i: nat)
    requires Sound(b.table) && i < |job.rows| && !Addresses(job.schema, job.rows[i]) && Ready(b, job, w, i)
    requires Upsert(After(b, job, i).table, job.schema, job.rows[i], OPTIONS).Ok?
    ensures var restarted := Step(Step(Next(Next(w, job), job), job, Crash), job, Claim(1));
      Next(Next(restarted, job), job).phase == Fatal
  {
    AfterSound(b, job, i);
    UpsertAgain(After(b, job, i).table, job.schema, job.rows[i], OPTIONS);
    hide Upsert, Sound, After, RecordedWrite;
    var written := Next(Next(w, job), job);
    assert written.phase.Written? && written.batch == w.batch && written.applied == w.applied;
    var restarted := Step(Step(written, job, Crash), job, Claim(1));
    assert restarted.phase == AtRow(1) && restarted.books == Imported(w.books, job.schema, job.rows[i]);
    assert Next(restarted, job).phase == Received(1);
  }

  lemma FatalFails(w: World, job: Job)
    requires w.phase == Fatal
    ensures Next(Next(w, job), job).batch.status == Failed
  {
  }

  /** At whatever row: a crash after the first write of a row that does not name its
      listing makes the restarted row conflict with it, and the batch fails. */
  lemma UnaddressedRowFails(b: Books, job: Job, i: nat) returns (actions: seq<Action>)
    requires Sound(b.table) && Expected(b, job) && i < |job.rows| && !Addresses(job.schema, job.rows[i])
    requires Upsert(After(b, job, i).table, job.schema, job.rows[i], OPTIONS).Ok?
    ensures Run(Begun(b), job, actions).batch.status == Failed
  {
    var front := ReachRow(b, job, i);
    RestartConflicts(b, job, Run(Begun(b), job, front), i);
    hide Upsert, Expected, Sound, After, Run, Next, Ready;
    RunSnoc(Begun(b), job, front, Work);
    actions := front + [Work];
    RunSnoc(Begun(b), job, actions, Work);
    actions := actions + [Work];
    RunSnoc(Begun(b), job, actions, Crash);
    actions := actions + [Crash];
    RunSnoc(Begun(b), job, actions, Claim(1));
    actions := actions + [Claim(1)];
    RunSnoc(Begun(b), job, actions, Work);
    actions := actions + [Work];
    RunSnoc(Begun(b), job, actions, Work);
    actions := actions + [Work];
    FatalFails(Run(Begun(b), job, actions), job);
    RunSnoc(Begun(b), job, actions, Work);
    actions := actions + [Work];
    RunSnoc(Begun(b), job, actions, Work);
    actions := actions + [Work];
  }

  /** No schedule of claims, steps and crashes fails the batch, and each that completes
      it leaves the crash-free listings and record. */
  ghost predicate CrashProof(b: Books, job: Job)
  {
    forall actions ::
      var w := Run(Begun(b), job, actions);
      w.batch.status != Failed && (w.batch.status == Completed ==> w.books == After(b, job, |job.rows|))
  }

  /** An import whose crash-free run meets only expected outcomes is crash proof exactly
      when each row that it writes names its listing. */
  lemma CrashProofIffAddressed(b: Books, job: Job)
    requires Sound(b.table) && Expected(b, job)
    ensures CrashProof(b, job) <==> Addressed(b, job)
  {
    hide Upsert, Sound, Expected;
    if Addressed(b, job) {
      forall actions ensures var w := Run(Begun(b), job, actions);
        w.batch.status != Failed && (w.batch.status == Completed ==> w.books == After(b, job, |job.rows|))
      {
        CrashEquivalence(b, job, actions);
        hide Run;
      }
    } else {
      var i :| 0 <= i < |job.rows| && Upsert(After(b, job, i).table, job.schema, job.rows[i], OPTIONS).Ok?
        && !Addresses(job.schema, job.rows[i]);
      var actions := UnaddressedRowFails(b, job, i);
    }
  }

  /** The two transactions of an unexpected failure: a crash between them leaves the
      batch processing past the row, with the error counted. */
  lemma CrashBetweenBumpAndFinish(w: World, job: Job)
    requires w.phase == Fatal && w.batch.status == Processing
    ensures var r := Step(Step(w, job, Work), job, Crash);
      && r.batch == Bumped(w.batch, CountError) && r.batch.status == Processing && r.phase == Down
      && Step(r, job, Claim(1)).phase == AtRow(1)
  {
  }
}
