/** The clock's half of the state machine (billing/jobs.py): the query for due
    rows, the trigger each needs, and the chunked job. */
module Ticks {
  import opened Prelude
  import opened Machine
  import opened Entitlements
  import opened Billing
  import EntitlementRuns

  const CHUNK: nat := 200

  /** `_due_q`, the SQL filter. */
  predicate DueQuery(e: Ent, now: int)
  {
    || (e.status == PastDue && e.dunningEndsAt.Some? && e.dunningEndsAt.value <= now)
    || (e.status == Grace && e.graceEndsAt.Some? && e.graceEndsAt.value <= now)
    || (e.status == Canceled && e.currentPeriodEnd.Some? && e.currentPeriodEnd.value <= now)
    || (e.status == Comped && e.compExpiresAt.Some? && e.compExpiresAt.value <= now)
    || (e.status == Active && e.billingMode == Term && e.currentPeriodEnd.Some? && e.currentPeriodEnd.value <= now)
    || (e.status == Trialing && e.trialEndsAt.Some? && e.trialEndsAt.value <= now - TRIAL_OVERDUE)
  }

  /** The one clock trigger a status can take. */
  function TriggerOf(s: Status): Option<Trigger>
  {
    match s
    case PastDue => Some(DunningElapsed)
    case Grace => Some(GraceElapsed)
    case Canceled => Some(PeriodElapsed)
    case Comped => Some(CompExpired)
    case Active => Some(TermEnded)
    case Trialing => Some(TrialOverdue)
    case _ => None
  }

  lemma ClockTriggersComplete(t: Trigger)
    ensures t in CLOCK_TRIGGERS <==> exists s :: TriggerOf(s) == Some(t)
  {
    assert TriggerOf(PastDue) == Some(DunningElapsed) && CLOCK_TRIGGERS[0] == DunningElapsed;
    assert TriggerOf(Grace) == Some(GraceElapsed) && CLOCK_TRIGGERS[1] == GraceElapsed;
    assert TriggerOf(Canceled) == Some(PeriodElapsed) && CLOCK_TRIGGERS[2] == PeriodElapsed;
    assert TriggerOf(Comped) == Some(CompExpired) && CLOCK_TRIGGERS[3] == CompExpired;
    assert TriggerOf(Active) == Some(TermEnded) && CLOCK_TRIGGERS[4] == TermEnded;
    assert TriggerOf(Trialing) == Some(TrialOverdue) && CLOCK_TRIGGERS[5] == TrialOverdue;
  }

  /** The SQL filter holds exactly when one clock trigger is due; that trigger is
      the only one due, and the table allows it. */
  lemma QueryIsExact(e: Ent, now: int)
    ensures DueQuery(e, now) <==> exists t :: IsClock(t) && IsDue(e, t, now)
    ensures forall t :: IsClock(t) && IsDue(e, t, now) ==>
              TriggerOf(e.status) == Some(t) && RuleFor(e.status, t).Some?
  {
    if DueQuery(e, now) {
      var t := TriggerOf(e.status).value;
      ClockTriggersComplete(t);
      assert IsClock(t) && IsDue(e, t, now);
    }
  }

  /** `_trigger_for`: the first due trigger in the fixed order. */
  method TriggerFor(e: Ent, now: int) returns (r: Option<Trigger>)
    ensures r.Some? <==> DueQuery(e, now)
    ensures r.Some? ==> IsClock(r.value) && IsDue(e, r.value, now)
    ensures r.Some? ==> r == TriggerOf(e.status)
  {
    QueryIsExact(e, now);
    for i := 0 to |CLOCK_TRIGGERS|
      invariant forall k :: 0 <= k < i ==> !IsDue(e, CLOCK_TRIGGERS[k], now)
    {
      if IsDue(e, CLOCK_TRIGGERS[i], now) {
        return Some(CLOCK_TRIGGERS[i]);
      }
    }
    return None;
  }

  /** A clock move takes no parameters that could be missing, and its new
      deadline, if any, lies after `now`. */
  lemma ClockMoveSettles(e: Ent, t: Trigger, now: int, p: Params)
    requires IsClock(t) && IsDue(e, t, now)
    ensures Moved(e, t, now, p).Ok?
    ensures !DueQuery(Moved(e, t, now, p).value, now)
  {
  }

  lemma {:induction false} DistinctCount(s: seq<nat>)
    requires NoDuplicates(s)
    ensures |Elements(s)| == |s|
  {
    if s != [] {
      var n := |s| - 1;
      DistinctCount(s[..n]);
      assert s == s[..n] + [s[n]];
      assert Elements(s) == Elements(s[..n]) + {s[n]};
      assert s[n] !in Elements(s[..n]);
    }
  }

  function DueRows(tb: Tables, now: int): set<nat>
  {
    set l | l in tb.ents && DueQuery(tb.ents[l], now)
  }

  /** The tables after the clock's move on one row it found due. */
  function TickRow(tb: Tables, l: nat, now: int, rank0: Option<Tier>): Tables
    requires l in DueRows(tb, now)
  {
    After(tb, l, TriggerOf(tb.ents[l].status).value, now, Params(), rank0)
  }

  /** Every entitlement belongs to a listing (the foreign key). */
  ghost predicate Linked(tb: Tables)
  {
    tb.ents.Keys <= tb.listings.Keys
  }

  lemma FlagNeverDue(e: Ent, v: Visibility, rank0: Option<Tier>, now: int)
    ensures DueQuery(FlagAfter(e, v, rank0), now) <==> DueQuery(e, now)
  {
  }

  lemma TickRowSettles(tb: Tables, l: nat, now: int, rank0: Option<Tier>)
    requires Linked(tb) && l in DueRows(tb, now)
    ensures Applied(tb, l, TriggerOf(tb.ents[l].status).value, now, Params(), rank0).Ok?
    ensures Linked(TickRow(tb, l, now, rank0))
    ensures DueRows(TickRow(tb, l, now, rank0), now) == DueRows(tb, now) - {l}
  {
    hide Written, DueQuery;
    var e := tb.ents[l];
    QueryIsExact(e, now);
    var t := TriggerOf(e.status).value;
    ClockMoveSettles(e, t, now, Params());
    var m := EntitlementRuns.Move(l, t, now, Params(), rank0);
    var row, after := EntitlementRuns.StepRow(tb, m);
    FlagNeverDue(after, tb.listings[l].visibility, rank0, now);
  }

  /** The rows one call selects: the first `CHUNK` due, by id. */
  function Picked(tb: Tables, now: int): seq<nat>
  {
    Take(Sorted(DueRows(tb, now)), CHUNK)
  }

  function TickAll(tb: Tables, picks: seq<nat>, now: int, rank0: Option<Tier>): Tables
  {
    if picks == [] then tb else
    var before := TickAll(tb, picks[..|picks| - 1], now, rank0);
    var l := picks[|picks| - 1];
    if l in DueRows(before, now) then TickRow(before, l, now, rank0) else before
  }

  lemma {:induction false} TickAllSettles(tb: Tables, picks: seq<nat>, now: int, rank0: Option<Tier>)
    requires Linked(tb) && NoDuplicates(picks)
    requires Elements(picks) <= DueRows(tb, now)
    ensures Linked(TickAll(tb, picks, now, rank0))
    ensures DueRows(TickAll(tb, picks, now, rank0), now) == DueRows(tb, now) - Elements(picks)
  {
    hide TickRow, Linked;
    if picks != [] {
      var n := |picks| - 1;
      TickAllSettles(tb, picks[..n], now, rank0);
      var before := TickAll(tb, picks[..n], now, rank0);
      var l := picks[n];
      assert picks == picks[..n] + [l];
      assert Elements(picks) == Elements(picks[..n]) + {l} && l !in Elements(picks[..n]);
      TickRowSettles(before, l, now, rank0);
    }
  }

  /** One row of the job's loop: the trigger it needs, applied under the lock. */
  method TickOne(db: Store, l: nat, now: int, rank0: Option<Tier>) returns (applied: bool)
    requires Linked(db.State()) && l in DueRows(db.State(), now)
    modifies db
    ensures applied && db.State() == TickRow(old(db.State()), l, now, rank0)
  {
    hide Applied, Linked;
    TickRowSettles(db.State(), l, now, rank0);
    var trigger := TriggerFor(db.ents[l], now);
    var refused := db.ApplyTrigger(l, trigger.value, now, Params(), rank0);
    applied := refused.None?;
  }

  method TickRows(db: Store, rows: seq<nat>, now: int, rank0: Option<Tier>) returns (done: nat)
    requires Linked(db.State()) && NoDuplicates(rows) && Elements(rows) <= DueRows(db.State(), now)
    modifies db
    ensures done == |rows| && db.State() == TickAll(old(db.State()), rows, now, rank0)
  {
    hide TickRow, DueRows, Linked;
    ghost var before := db.State();
    done := 0;
    for i := 0 to |rows|
      invariant done == i && db.State() == TickAll(before, rows[..i], now, rank0)
    {
      TickAllSettles(before, rows[..i], now, rank0);
      assert rows[i] !in Elements(rows[..i]) && rows[i] in Elements(rows);
      var applied := TickOne(db, rows[i], now, rank0);
      assert rows[..i + 1][..i] == rows[..i];
      done := done + 1;
    }
    assert rows[..|rows|] == rows;
  }

  lemma PickedRows(tb: Tables, now: int)
    ensures NoDuplicates(Picked(tb, now)) && Elements(Picked(tb, now)) <= DueRows(tb, now)
    ensures |Elements(Picked(tb, now))| == |Picked(tb, now)|
    ensures |DueRows(tb, now)| <= CHUNK ==> Elements(Picked(tb, now)) == DueRows(tb, now)
  {
    var all := Sorted(DueRows(tb, now));
    var picks := Picked(tb, now);
    forall x | x in picks ensures x in all {
      var i :| 0 <= i < |picks| && picks[i] == x;
      assert all[i] == x;
    }
    DistinctCount(picks);
  }

  /** `entitlement_transitions`, run alone: it selects, then applies row by row.
      Every picked row is settled and no other becomes due, so a call that does
      not report `more` leaves nothing due. */
  method EntitlementTransitions(db: Store, now: int, rank0: Option<Tier>)
    returns (done: nat, more: bool)
    requires Linked(db.State())
    modifies db
    ensures Linked(db.State())
    ensures db.State() == TickAll(old(db.State()), Picked(old(db.State()), now), now, rank0)
    ensures done == |Picked(old(db.State()), now)|
    ensures DueRows(db.State(), now) == DueRows(old(db.State()), now) - Elements(Picked(old(db.State()), now))
    ensures more <==> |DueRows(old(db.State()), now)| >= CHUNK
    ensures !more ==> DueRows(db.State(), now) == {}
  {
    ghost var before := db.State();
    var rows := Take(Sorted(set l | l in db.ents && DueQuery(db.ents[l], now)), CHUNK);
    PickedRows(before, now);
    done := TickRows(db, rows, now, rank0);
    TickAllSettles(before, rows, now, rank0);
    more := |rows| == CHUNK;
  }

  function OneTick(tb: Tables, now: int, rank0: Option<Tier>): Tables
  {
    TickAll(tb, Picked(tb, now), now, rank0)
  }

  /** The states between repeated calls at one time. */
  ghost predicate TickRun(states: seq<Tables>, now: int, rank0: Option<Tier>)
  {
    |states| > 0 && Linked(states[0])
    && forall i :: 0 < i < |states| ==> states[i] == OneTick(states[i - 1], now, rank0)
  }

  function DueCount(tb: Tables, now: int): nat
  {
    |DueRows(tb, now)|
  }

  function Less(total: nat, settled: nat): nat
  {
    if total <= settled then 0 else total - settled
  }

  lemma OneCall(tb: Tables, now: int, rank0: Option<Tier>)
    requires Linked(tb)
    ensures Linked(OneTick(tb, now, rank0))
    ensures DueCount(OneTick(tb, now, rank0), now) == Less(DueCount(tb, now), CHUNK)
  {
    var picks := Picked(tb, now);
    PickedRows(tb, now);
    TickAllSettles(tb, picks, now, rank0);
    SubsetDifference(DueRows(tb, now), Elements(picks));
  }

  /** Each call settles a full chunk or everything: n calls at one time settle
      200n rows, so the job drains and no row stays due. */
  lemma {:induction false} TicksDrain(states: seq<Tables>, now: int, rank0: Option<Tier>, n: nat)
    requires TickRun(states, now, rank0) && n < |states|
    ensures Linked(states[n]) && DueCount(states[n], now) == Less(DueCount(states[0], now), 200 * n)
    decreases n
  {
    if n > 0 {
      TicksDrain(states, now, rank0, n - 1);
      OneCall(states[n - 1], now, rank0);
      LessLess(DueCount(states[0], now), n);
    }
  }

  lemma LessLess(total: nat, n: nat)
    requires n > 0
    ensures Less(Less(total, 200 * (n - 1)), CHUNK) == Less(total, 200 * n)
  {
  }

  lemma SubsetDifference(a: set<nat>, b: set<nat>)
    requires b <= a
    ensures |a - b| == |a| - |b|
  {
  }

  /** A pick applied after any other moves either makes a move that is legal and
      due at that moment, or writes nothing. */
  lemma StalePickIsSafe(tb: Tables, moves: seq<EntitlementRuns.Move>, l: nat, t: Trigger, now: int, rank0: Option<Tier>)
    requires IsClock(t)
    ensures var at := EntitlementRuns.Run(tb, moves);
            var after := After(at, l, t, now, Params(), rank0);
            || after == at
            || (l in at.ents && IsDue(at.ents[l], t, now) && RuleFor(at.ents[l].status, t).Some?
                && l in after.ents && !DueQuery(after.ents[l], now))
  {
    hide Written, DueQuery;
    var at := EntitlementRuns.Run(tb, moves);
    if Applied(at, l, t, now, Params(), rank0).Ok? {
      ClockMoveSettles(at.ents[l], t, now, Params());
      var row, e := EntitlementRuns.StepRow(at, EntitlementRuns.Move(l, t, now, Params(), rank0));
      FlagNeverDue(e, at.listings[l].visibility, rank0, now);
    }
  }

  /** How a stale pick is refused, exactly: a row that left the trigger's status
      raises `InvalidTransition`, which the job does not catch; one that kept the
      status but is no longer due raises `NotDue`, which the job skips. */
  lemma StalePickRefusal(tb: Tables, l: nat, t: Trigger, now: int, rank0: Option<Tier>)
    requires IsClock(t) && l in tb.listings && l in tb.ents
    ensures var r := Applied(tb, l, t, now, Params(), rank0);
            && (r == Err(InvalidTransition) <==> tb.ents[l].status != ClockSource(t))
            && (r == Err(NotDue) <==> tb.ents[l].status == ClockSource(t) && !IsDue(tb.ents[l], t, now))
            && (r.Ok? <==> IsDue(tb.ents[l], t, now))
  {
  }
}
