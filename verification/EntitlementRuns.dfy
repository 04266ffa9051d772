/** What every run of triggers keeps: deadlines, comp columns, the expiry flag,
    the period end, the tier and its event log, and how fast a payment lapses. */
module EntitlementRuns {
  import opened Prelude
  import opened Machine
  import opened Entitlements
  import opened Billing

  /** One call of `apply_trigger`, by an adapter, the clock or an operator. */
  datatype Move = Move(listing: nat, trigger: Trigger, now: int, params: Params, rank0: Option<Tier>)

  function Try(tb: Tables, m: Move): Result<Tables, Refusal>
  {
    Applied(tb, m.listing, m.trigger, m.now, m.params, m.rank0)
  }

  function Step(tb: Tables, m: Move): Tables
  {
    After(tb, m.listing, m.trigger, m.now, m.params, m.rank0)
  }

  function Run(tb: Tables, moves: seq<Move>): Tables
  {
    if moves == [] then tb else Step(Run(tb, moves[..|moves| - 1]), moves[|moves| - 1])
  }

  /** Nothing sold yet: every listing untiered, no entitlement, an empty log. */
  ghost predicate Initial(tb: Tables)
  {
    tb.ents == map[] && tb.events == [] && forall l :: l in tb.listings ==> tb.listings[l].currentTier == None
  }

  lemma StepFrame(tb: Tables, m: Move, l: nat)
    requires l != m.listing
    ensures l in Step(tb, m).ents <==> l in tb.ents
    ensures l in tb.ents ==> Step(tb, m).ents[l] == tb.ents[l]
    ensures l in Step(tb, m).listings <==> l in tb.listings
    ensures l in tb.listings ==> Step(tb, m).listings[l] == tb.listings[l]
  {
  }

  /** What an applied move writes on its own listing. */
  lemma StepRow(tb: Tables, m: Move) returns (row: Ent, e: Ent)
    requires Try(tb, m).Ok?
    ensures m.listing in tb.listings && CurrentRow(tb, m.listing, m.trigger, m.params) == Ok(row)
    ensures RuleFor(row.status, m.trigger).Some? && Moved(row, m.trigger, m.now, m.params) == Ok(e)
    ensures var l, after := m.listing, Step(tb, m);
            && after == Written(tb, l, row.status, m.trigger, m.now, e, m.rank0)
            && after.ents == tb.ents[l := FlagAfter(e, tb.listings[l].visibility, m.rank0)]
            && after.listings.Keys == tb.listings.Keys
            && after.listings[l].currentTier == EffectiveTier(e, m.rank0)
  {
    row := CurrentRow(tb, m.listing, m.trigger, m.params).value;
    e := Moved(row, m.trigger, m.now, m.params).value;
  }

  // --- the row invariant ------------------------------------------------------

  predicate CompSet(e: Ent)
  {
    e.compGrantedBy.Some? || e.compReason != "" || e.compExpiresAt.Some?
  }

  predicate WellKept(e: Ent)
  {
    && (e.status == PastDue ==> e.dunningEndsAt.Some?)
    && (e.status == Grace ==> e.graceEndsAt.Some?)
    && (e.status == Trialing ==> e.trialEndsAt.Some?)
    && (CompSet(e) ==> e.status in {Comped, Expired})
    && (e.hiddenByExpiry ==> !IsPerk(e.status))
  }

  ghost predicate AllWellKept(tb: Tables)
  {
    forall l :: l in tb.ents ==> WellKept(tb.ents[l])
  }

  predicate ExceptFlag(e: Ent)
  {
    WellKept(e.(hiddenByExpiry := false))
  }

  lemma OverrideKeeps(e: Ent, now: int, p: Params)
    requires WellKept(e)
    ensures var r := AfterOverride(e, now, p); r.Some? ==> ExceptFlag(r.value)
  {
    if AfterOverride(e, now, p).Some? {
      match p.toStatus.status {
        case Trialing =>
        case PastDue =>
        case Grace =>
        case Canceled =>
        case NoStatus =>
        case Expired =>
        case Active =>
        case Comped =>
      }
    }
  }

  lemma StartKeeps(e: Ent, trial: bool, now: int, p: Params)
    ensures var r := AfterStart(e, trial, now, p); r.Some? ==> ExceptFlag(r.value)
  {
  }

  lemma PaymentKeeps(e: Ent, p: Params)
    requires WellKept(e) && e.status != Expired
    ensures var r := AfterPayment(e, p); r.Some? ==> ExceptFlag(r.value)
  {
  }

  lemma GrantKeeps(e: Ent, now: int, p: Params)
    ensures var r := AfterGrant(e, now, p); r.Some? ==> ExceptFlag(r.value)
  {
  }

  lemma FailureKeeps(e: Ent, code: string, now: int, p: Params)
    requires WellKept(e) && e.status in {Trialing, Active, PastDue, Grace}
    ensures ExceptFlag(AfterFailure(e, code, now, p))
  {
  }

  lemma CancelKeeps(e: Ent, to: Target, now: int, p: Params)
    requires WellKept(e) && e.status in {Trialing, Active, PastDue, Grace}
    ensures ExceptFlag(AfterCancel(e, to, now, p))
  {
  }

  lemma MovedKeeps(e: Ent, t: Trigger, now: int, p: Params)
    requires WellKept(e) && Moved(e, t, now, p).Ok?
    ensures ExceptFlag(Moved(e, t, now, p).value)
  {
    hide AfterOverride, AfterStart, AfterPayment, AfterFailure, AfterCancel, AfterGrant, IsDue;
    match t {
      case Override => OverrideKeeps(e, now, p);
      case Start => StartKeeps(e, false, now, p);
      case StartTrial => StartKeeps(e, true, now, p);
      case PaymentSucceeded => PaymentKeeps(e, p);
      case PaymentFailed => FailureKeeps(e, p.failureCode, now, p);
      case TrialOverdue => FailureKeeps(e, "trial_unreported", now, p);
      case Cancel => CancelKeeps(e, RuleFor(e.status, t).value.to, now, p);
      case Grant => GrantKeeps(e, now, p);
      case _ =>
    }
  }

  lemma FlagKeeps(e: Ent, v: Visibility, rank0: Option<Tier>)
    requires ExceptFlag(e)
    ensures WellKept(FlagAfter(e, v, rank0))
  {
  }

  lemma StepKeeps(tb: Tables, m: Move)
    requires AllWellKept(tb)
    ensures AllWellKept(Step(tb, m))
  {
    if Try(tb, m).Ok? {
      var row, e := StepRow(tb, m);
      MovedKeeps(row, m.trigger, m.now, m.params);
      FlagKeeps(e, tb.listings[m.listing].visibility, m.rank0);
    }
  }

  /** Every run of triggers keeps every row's deadlines, comp columns and flag
      consistent with its status. */
  lemma {:induction false} RunKeeps(tb: Tables, moves: seq<Move>)
    requires AllWellKept(tb)
    ensures AllWellKept(Run(tb, moves))
  {
    if moves != [] {
      var n := |moves| - 1;
      RunKeeps(tb, moves[..n]);
      StepKeeps(Run(tb, moves[..n]), moves[n]);
    }
  }

  // --- the period end: exactly when it is known -------------------------------

  /** A paid-for row that will run out knows when. */
  predicate HasPeriod(e: Ent)
  {
    e.status in {Trialing, Active, PastDue, Canceled} ==> e.currentPeriodEnd.Some?
  }

  ghost predicate AllPeriods(tb: Tables)
  {
    forall l :: l in tb.ents ==> HasPeriod(tb.ents[l])
  }

  /** An override to active or past_due that neither supplies nor finds a period end. */
  predicate BlindOverride(e: Ent, t: Trigger, p: Params)
  {
    t == Override && p.toStatus in {Known(Active), Known(PastDue)}
    && p.periodEnd.None? && e.currentPeriodEnd.None?
  }

  lemma OverridePeriod(e: Ent, now: int, p: Params)
    requires HasPeriod(e) && AfterOverride(e, now, p).Some?
    ensures HasPeriod(AfterOverride(e, now, p).value) <==> !BlindOverride(e, Override, p)
  {
    match p.toStatus.status {
      case Trialing =>
      case PastDue =>
      case Active =>
      case Canceled =>
      case _ =>
    }
  }

  lemma MovedPeriod(e: Ent, t: Trigger, now: int, p: Params)
    requires HasPeriod(e) && Moved(e, t, now, p).Ok?
    ensures HasPeriod(Moved(e, t, now, p).value) <==> !BlindOverride(e, t, p)
  {
    match t {
      case Override => OverridePeriod(e, now, p);
      case Start =>
      case StartTrial =>
      case PaymentSucceeded =>
      case PaymentFailed =>
      case TrialOverdue =>
      case Cancel =>
      case Grant =>
      case _ =>
    }
  }

  predicate BlindMove(tb: Tables, m: Move)
  {
    Try(tb, m).Ok? && BlindOverride(CurrentRow(tb, m.listing, m.trigger, m.params).value, m.trigger, m.params)
  }

  lemma StepPeriod(tb: Tables, m: Move)
    requires AllPeriods(tb)
    ensures AllPeriods(Step(tb, m)) <==> !BlindMove(tb, m)
  {
    if Try(tb, m).Ok? {
      var row, e := StepRow(tb, m);
      MovedPeriod(row, m.trigger, m.now, m.params);
      var after := Step(tb, m);
      assert HasPeriod(after.ents[m.listing]) <==> HasPeriod(e);
      assert forall l :: l in after.ents && l != m.listing ==> l in tb.ents && after.ents[l] == tb.ents[l];
    }
  }

  ghost predicate PeriodsThroughout(tb: Tables, moves: seq<Move>)
  {
    AllPeriods(Run(tb, moves)) && (moves != [] ==> PeriodsThroughout(tb, moves[..|moves| - 1]))
  }

  ghost predicate NoBlindMove(tb: Tables, moves: seq<Move>)
  {
    moves != [] ==>
      NoBlindMove(tb, moves[..|moves| - 1]) && !BlindMove(Run(tb, moves[..|moves| - 1]), moves[|moves| - 1])
  }

  /** Every state of a run knows every period end if and only if no applied move
      was a blind override. */
  lemma {:induction false} PeriodsKnownIffNoBlindMove(tb: Tables, moves: seq<Move>)
    requires AllPeriods(tb)
    ensures PeriodsThroughout(tb, moves) <==> NoBlindMove(tb, moves)
  {
    if moves != [] {
      var n := |moves| - 1;
      PeriodsKnownIffNoBlindMove(tb, moves[..n]);
      if PeriodsThroughout(tb, moves[..n]) {
        assert AllPeriods(Run(tb, moves[..n]));
        StepPeriod(Run(tb, moves[..n]), moves[n]);
      }
    }
  }

  /** In a run without a blind override every canceled row becomes due, at its
      period end. */
  lemma CanceledComesDue(tb: Tables, moves: seq<Move>, l: nat)
    requires AllPeriods(tb) && NoBlindMove(tb, moves)
    requires l in Run(tb, moves).ents && Run(tb, moves).ents[l].status == Canceled
    ensures var e := Run(tb, moves).ents[l];
            e.currentPeriodEnd.Some? && forall now :: e.currentPeriodEnd.value <= now ==> IsDue(e, PeriodElapsed, now)
  {
    PeriodsKnownIffNoBlindMove(tb, moves);
  }

  /** A row with a trial end has a period end. */
  predicate TrialHasPeriod(e: Ent)
  {
    e.trialEndsAt.Some? ==> e.currentPeriodEnd.Some?
  }

  ghost predicate AllTrialsHavePeriods(tb: Tables)
  {
    forall l :: l in tb.ents ==> TrialHasPeriod(tb.ents[l])
  }

  lemma OverrideTrial(e: Ent, now: int, p: Params)
    requires TrialHasPeriod(e) && AfterOverride(e, now, p).Some?
    ensures TrialHasPeriod(AfterOverride(e, now, p).value)
  {
  }

  lemma MovedTrial(e: Ent, t: Trigger, now: int, p: Params)
    requires TrialHasPeriod(e) && Moved(e, t, now, p).Ok?
    ensures TrialHasPeriod(Moved(e, t, now, p).value)
  {
    hide RuleFor, IsDue;
    if t == Override {
      hide AfterOverride;
      OverrideTrial(e, now, p);
    }
  }

  lemma StepTrial(tb: Tables, m: Move)
    requires AllTrialsHavePeriods(tb)
    ensures AllTrialsHavePeriods(Step(tb, m))
  {
    if Try(tb, m).Ok? {
      var row, e := StepRow(tb, m);
      MovedTrial(row, m.trigger, m.now, m.params);
      hide Moved, Written, RuleFor;
    }
  }

  lemma {:induction false} RunTrials(tb: Tables, moves: seq<Move>)
    requires AllTrialsHavePeriods(tb)
    ensures AllTrialsHavePeriods(Run(tb, moves))
  {
    hide Step, AllTrialsHavePeriods;
    if moves != [] {
      var n := |moves| - 1;
      RunTrials(tb, moves[..n]);
      StepTrial(Run(tb, moves[..n]), moves[n]);
    }
  }

  /** A row on which no clock trigger is ever due. */
  ghost predicate NeverDue(e: Ent)
  {
    forall t, later :: IsClock(t) ==> !IsDue(e, t, later)
  }

  lemma BlindOverrideLands(e: Ent, now: int, p: Params)
    requires TrialHasPeriod(e) && BlindOverride(e, Override, p) && Moved(e, Override, now, p).Ok?
    ensures var r := Moved(e, Override, now, p).value;
            r.status in {Active, PastDue} && r.currentPeriodEnd.None? && r.trialEndsAt.None?
  {
  }

  lemma EndlessCancel(e: Ent, now: int, q: Params)
    requires e.status in {Active, PastDue} && e.currentPeriodEnd.None? && e.trialEndsAt.None?
    ensures var r := Moved(e, Cancel, now, q);
            r.Ok? && r.value.status == Canceled && r.value.currentPeriodEnd.None?
  {
  }

  lemma EndlessIsNeverDue(e: Ent)
    requires e.status == Canceled && e.currentPeriodEnd.None?
    ensures NeverDue(e)
  {
  }

  /** The blind override in use: in any run from an unsold tenant, an applied blind
      override followed by a cancel, at any time, leaves a canceled row on which no clock
      trigger is ever due. */
  lemma BlindOverrideNeverEnds(tb: Tables, moves: seq<Move>, m: Move, c: Move)
    requires Initial(tb) && BlindMove(Run(tb, moves), m) && c.listing == m.listing && c.trigger == Cancel
    ensures var end := Step(Step(Run(tb, moves), m), c);
            && m.listing in end.ents && end.ents[m.listing].status == Canceled && NeverDue(end.ents[m.listing])
  {
    var at := Run(tb, moves);
    RunTrials(tb, moves);
    var row, e := StepRow(at, m);
    BlindOverrideLands(row, m.now, m.params);
    var mid := Step(at, m);
    var held := mid.ents[m.listing];
    assert held.status == e.status && held.currentPeriodEnd.None? && held.trialEndsAt.None?;
    EndlessCancel(held, c.now, c.params);
    assert Try(mid, c).Ok? by { hide Written; }
    hide Moved, Written, RuleFor;
    var row2, e2 := StepRow(mid, c);
    EndlessIsNeverDue(Step(mid, c).ents[m.listing]);
  }

  // --- the tier and its log ---------------------------------------------------

  /** The tier key the `listing.tier_changed` events of `l` say it has. */
  function Replayed(events: seq<Event>, l: nat): Option<string>
  {
    if events == [] then None else
    var last := events[|events| - 1];
    if last.TierChanged? && last.listing == l then last.toTier else Replayed(events[..|events| - 1], l)
  }

  /** Each event starts from the tier the previous one left. */
  ghost predicate Chained(events: seq<Event>, l: nat)
  {
    events != [] ==>
      var last := events[|events| - 1];
      && Chained(events[..|events| - 1], l)
      && (last.TierChanged? && last.listing == l ==> last.fromTier == Replayed(events[..|events| - 1], l))
  }

  lemma {:induction false} OtherEvents(log: seq<Event>, more: seq<Event>, l: nat)
    requires forall i :: 0 <= i < |more| ==> !(more[i].TierChanged? && more[i].listing == l)
    ensures Replayed(log + more, l) == Replayed(log, l)
    ensures Chained(log + more, l) <==> Chained(log, l)
  {
    if more == [] {
      assert log + more == log;
    } else {
      var n := |more| - 1;
      assert (log + more)[..|log + more| - 1] == log + more[..n];
      OtherEvents(log, more[..n], l);
    }
  }

  lemma {:induction false} OneTierEvent(log: seq<Event>, l: nat, before: Option<Tier>, after: Option<Tier>, now: int, cause: string)
    requires Chained(log, l) && Replayed(log, l) == TierKey(before)
    ensures var r := log + TierEvents(l, before, after, now, cause);
            Chained(r, l) && Replayed(r, l) == TierKey(after)
  {
    var more := TierEvents(l, before, after, now, cause);
    if more == [] {
      assert log + more == log;
    } else {
      assert (log + more)[..|log + more| - 1] == log;
    }
  }

  ghost predicate LogMatches(tb: Tables)
  {
    forall l :: l in tb.listings ==>
      Chained(tb.events, l) && Replayed(tb.events, l) == TierKey(tb.listings[l].currentTier)
  }

  lemma {:induction false} LogExtends(log: seq<Event>, l: nat, a: seq<Event>, c: seq<Event>,
                                     before: Option<Tier>, after: Option<Tier>, now: int, cause: string, k: nat)
    requires Chained(log, k) && (k == l ==> Replayed(log, k) == TierKey(before))
    requires forall i :: 0 <= i < |a| ==> !a[i].TierChanged?
    requires forall i :: 0 <= i < |c| ==> !c[i].TierChanged?
    ensures var r := log + a + TierEvents(l, before, after, now, cause) + c;
            && Chained(r, k)
            && Replayed(r, k) == if k == l then TierKey(after) else Replayed(log, k)
  {
    OtherEvents(log, a, k);
    var b := TierEvents(l, before, after, now, cause);
    if k == l {
      OneTierEvent(log + a, l, before, after, now, cause);
    } else {
      OtherEvents(log + a, b, k);
    }
    OtherEvents(log + a + b, c, k);
  }

  lemma StepLog(tb: Tables, m: Move)
    requires LogMatches(tb)
    ensures LogMatches(Step(tb, m))
  {
    if Try(tb, m).Ok? {
      var row, e := StepRow(tb, m);
      WrittenLog(tb, m.listing, row.status, m.trigger, m.now, e, m.rank0);
    }
  }

  lemma WrittenLog(tb: Tables, l: nat, prior: Status, t: Trigger, now: int, e: Ent, rank0: Option<Tier>)
    requires l in tb.listings && RuleFor(prior, t).Some? && LogMatches(tb)
    ensures LogMatches(Written(tb, l, prior, t, now, e, rank0))
  {
    var after := Written(tb, l, prior, t, now, e, rank0);
    var rule := RuleFor(prior, t).value;
    var before, target := tb.listings[l].currentTier, after.listings[l].currentTier;
    var a := LifecycleEvents(l, rule.events);
    var cause := TierCause(tb.ranks, rule, before, target);
    var c := VisibilityEvents(l, tb.listings[l].visibility, after.listings[l].visibility);
    assert after.events == tb.events + a + TierEvents(l, before, target, now, cause) + c;
    forall k | k in after.listings
      ensures Chained(after.events, k) && Replayed(after.events, k) == TierKey(after.listings[k].currentTier)
    {
      assert k in tb.listings;
      LogExtends(tb.events, l, a, c, before, target, now, cause, k);
    }
  }

  /** Over any run from an unsold tenant, with any rank-0 tier at each step, the
      tier events of a listing chain from none and replay to its current tier. */
  lemma {:induction false} TierLogReplays(tb: Tables, moves: seq<Move>, l: nat)
    requires Initial(tb)
    requires l in Run(tb, moves).listings
    ensures Chained(Run(tb, moves).events, l)
    ensures Replayed(Run(tb, moves).events, l) == TierKey(Run(tb, moves).listings[l].currentTier)
  {
    RunLog(tb, moves);
  }

  lemma {:induction false} RunLog(tb: Tables, moves: seq<Move>)
    requires LogMatches(tb)
    ensures LogMatches(Run(tb, moves))
  {
    if moves != [] {
      var n := |moves| - 1;
      RunLog(tb, moves[..n]);
      StepLog(Run(tb, moves[..n]), moves[n]);
    }
  }

  /** Every sold listing shows its entitlement's effective tier; every other, none. */
  ghost predicate TiersEffective(tb: Tables, rank0: Option<Tier>)
  {
    forall l :: l in tb.listings ==>
      tb.listings[l].currentTier == if l in tb.ents then EffectiveTier(tb.ents[l], rank0) else None
  }

  lemma StepTier(tb: Tables, m: Move)
    requires TiersEffective(tb, m.rank0)
    ensures TiersEffective(Step(tb, m), m.rank0)
  {
  }

  /** With a fixed rank-0 tier the denormalised tier is the effective tier in
      every state of every run. */
  lemma {:induction false} TierIsEffective(tb: Tables, moves: seq<Move>, rank0: Option<Tier>)
    requires TiersEffective(tb, rank0)
    requires forall i :: 0 <= i < |moves| ==> moves[i].rank0 == rank0
    ensures TiersEffective(Run(tb, moves), rank0)
  {
    if moves != [] {
      var n := |moves| - 1;
      TierIsEffective(tb, moves[..n], rank0);
      StepTier(Run(tb, moves[..n]), moves[n]);
    }
  }

  // --- how a payment lapses ---------------------------------------------------

  predicate LapseTrigger(t: Trigger)
  {
    t == PaymentFailed || IsClock(t)
  }

  /** A run in which `l` sees only failed payments and the clock, never before
      `from` and in order of time; other listings see anything. */
  ghost predicate LapseRun(moves: seq<Move>, l: nat, from: int)
  {
    && (forall i :: 0 <= i < |moves| && moves[i].listing == l ==> LapseTrigger(moves[i].trigger) && from <= moves[i].now)
    && (forall i, j :: 0 <= i < j < |moves| && moves[i].listing == l && moves[j].listing == l ==>
          moves[i].now <= moves[j].now)
  }

  /** The time of the last move on `l`. */
  function LastTime(moves: seq<Move>, l: nat, from: int): int
  {
    if moves == [] then from
    else if moves[|moves| - 1].listing == l then moves[|moves| - 1].now
    else LastTime(moves[..|moves| - 1], l, from)
  }

  lemma {:induction false} LastTimeBelow(moves: seq<Move>, l: nat, from: int, k: nat)
    requires k < |moves| && moves[k].listing == l && LapseRun(moves, l, from)
    ensures from <= LastTime(moves[..k], l, from) <= moves[k].now
  {
    var before := moves[..k];
    if before != [] && before[k - 1].listing != l {
      LastTimeOf(before, l, from);
    }
  }

  lemma {:induction false} LastTimeOf(moves: seq<Move>, l: nat, from: int)
    ensures LastTime(moves, l, from) == from
            || exists i :: 0 <= i < |moves| && moves[i].listing == l && moves[i].now == LastTime(moves, l, from)
  {
    if moves != [] {
      var n := |moves| - 1;
      if moves[n].listing != l {
        LastTimeOf(moves[..n], l, from);
        if LastTime(moves, l, from) != from {
          var i :| 0 <= i < n && moves[..n][i].listing == l && moves[..n][i].now == LastTime(moves[..n], l, from);
          assert moves[i].listing == l;
        }
      }
    }
  }

  /** Dunning that began at `s`, seen when the clock last showed `clock`. */
  ghost predicate Lapsing(tb: Tables, l: nat, tier: Tier, s: int, clock: int)
  {
    && l in tb.ents && l in tb.listings
    && tb.ents[l].tier == tier && s <= clock
    && match tb.ents[l].status
       case PastDue => tb.ents[l].dunningEndsAt == Some(s + DUNNING) && tb.listings[l].currentTier == Some(tier)
       case Grace => tb.ents[l].graceEndsAt.Some? && s + DUNNING + GRACE <= tb.ents[l].graceEndsAt.value
                     && s + DUNNING <= clock
       case Expired => s + DUNNING + GRACE <= clock
       case _ => false
  }

  lemma EntersDunning(e: Ent, t: Trigger, now: int, p: Params)
    requires Moved(e, t, now, p).Ok? && Moved(e, t, now, p).value.status == PastDue
    requires t == Override || e.status != PastDue
    ensures Moved(e, t, now, p).value.dunningEndsAt == Some(now + DUNNING)
  {
    match t {
      case Override =>
      case Start =>
      case StartTrial =>
      case PaymentSucceeded =>
      case PaymentFailed =>
      case TrialOverdue =>
      case Cancel =>
      case Grant =>
      case _ =>
    }
  }

  /** A move into past_due starts the 14 days, with the paid tier on the listing. */
  lemma DunningBegins(tb: Tables, m: Move)
    requires Try(tb, m).Ok? && Step(tb, m).ents[m.listing].status == PastDue
    requires m.trigger == Override || CurrentRow(tb, m.listing, m.trigger, m.params).value.status != PastDue
    ensures Lapsing(Step(tb, m), m.listing, Step(tb, m).ents[m.listing].tier, m.now, m.now)
  {
    hide Applied, Written, Moved, CurrentRow;
    var row, e := StepRow(tb, m);
    EntersDunning(row, m.trigger, m.now, m.params);
  }

  lemma LapseFailure(e: Ent, now: int, p: Params)
    requires e.status in {PastDue, Grace, Expired} && Moved(e, PaymentFailed, now, p).Ok?
    ensures var r := Moved(e, PaymentFailed, now, p).value;
            && r.tier == e.tier && r.status == e.status
            && r.graceEndsAt == e.graceEndsAt && r.dunningEndsAt == e.dunningEndsAt
  {
  }

  lemma LapseClock(e: Ent, t: Trigger, now: int, p: Params)
    requires e.status in {PastDue, Grace, Expired} && IsClock(t) && Moved(e, t, now, p).Ok?
    ensures var r := Moved(e, t, now, p).value;
            && r.tier == e.tier
            && (|| (e.status == PastDue && r.status == Grace && Reached(e.dunningEndsAt, now) && r.graceEndsAt == Some(now + GRACE))
                || (e.status == Grace && r.status == Expired && Reached(e.graceEndsAt, now)))
  {
    hide LifecycleReset, CompCleared;
    assert t in {DunningElapsed, GraceElapsed, PeriodElapsed, CompExpired, TermEnded, TrialOverdue};
  }

  /** One failure or clock move on a row past due, in grace or expired. */
  lemma LapseMoved(e: Ent, t: Trigger, now: int, p: Params)
    requires e.status in {PastDue, Grace, Expired} && LapseTrigger(t) && Moved(e, t, now, p).Ok?
    ensures var r := Moved(e, t, now, p).value;
            && r.tier == e.tier
            && (t == PaymentFailed ==> r.status == e.status && r.graceEndsAt == e.graceEndsAt && r.dunningEndsAt == e.dunningEndsAt)
            && (t != PaymentFailed ==>
                  || (e.status == PastDue && r.status == Grace && Reached(e.dunningEndsAt, now)
                      && r.graceEndsAt == Some(now + GRACE))
                  || (e.status == Grace && r.status == Expired && Reached(e.graceEndsAt, now)))
  {
    hide Moved;
    if t == PaymentFailed {
      LapseFailure(e, now, p);
    } else {
      LapseClock(e, t, now, p);
    }
  }

  lemma LapseStep(tb: Tables, m: Move, tier: Tier, s: int, clock: int)
    requires Lapsing(tb, m.listing, tier, s, clock) && LapseTrigger(m.trigger) && clock <= m.now
    ensures Lapsing(Step(tb, m), m.listing, tier, s, m.now)
    ensures var a, b := tb.ents[m.listing], Step(tb, m).ents[m.listing];
            && LapseRank(a.status) <= LapseRank(b.status)
            && (a.status == b.status ==> a.dunningEndsAt == b.dunningEndsAt && a.graceEndsAt == b.graceEndsAt)
  {
    if Try(tb, m).Ok? {
      var row, e := StepRow(tb, m);
      LapseMoved(row, m.trigger, m.now, m.params);
    }
  }

  function LapseRank(s: Status): nat
  {
    match s case PastDue => 0 case Grace => 1 case _ => 2
  }

  /** From the moment dunning begins at `s`, while only failures and the clock
      follow: the paid tier stays before s + 14 days, expiry cannot come before
      s + 44 days, and no failure moves a deadline. */
  lemma {:induction false} LapseBounds(tb: Tables, moves: seq<Move>, l: nat, tier: Tier, s: int)
    requires Lapsing(tb, l, tier, s, s) && LapseRun(moves, l, s)
    ensures var end, clock := Run(tb, moves), LastTime(moves, l, s);
            && Lapsing(end, l, tier, s, clock)
            && (clock < s + 14 * DAY ==> end.ents[l].status == PastDue && end.listings[l].currentTier == Some(tier))
            && (end.ents[l].status == Expired ==> s + 44 * DAY <= clock)
            && LapseRank(tb.ents[l].status) <= LapseRank(end.ents[l].status)
            && (tb.ents[l].status == end.ents[l].status ==>
                  tb.ents[l].dunningEndsAt == end.ents[l].dunningEndsAt
                  && tb.ents[l].graceEndsAt == end.ents[l].graceEndsAt)
  {
    if moves != [] {
      var n := |moves| - 1;
      LapseBounds(tb, moves[..n], l, tier, s);
      var mid := Run(tb, moves[..n]);
      if moves[n].listing == l {
        LastTimeBelow(moves, l, s, n);
        LapseStep(mid, moves[n], tier, s, LastTime(moves[..n], l, s));
      } else {
        StepFrame(mid, moves[n], l);
      }
    }
  }

  /** How many clock moves can still happen to a row nobody pays for. */
  function Budget(s: Status): nat
  {
    match s
    case Trialing => 3
    case Active => 2
    case PastDue => 2
    case Grace => 1
    case Canceled => 1
    case Comped => 1
    case _ => 0
  }

  function BudgetOf(tb: Tables, l: nat): nat
  {
    if l in tb.ents then Budget(tb.ents[l].status) else 0
  }

  /** Clock moves that were applied to `l`. */
  function ClockMoves(tb: Tables, moves: seq<Move>, l: nat): nat
  {
    if moves == [] then 0 else
    var n := |moves| - 1;
    ClockMoves(tb, moves[..n], l)
    + if moves[n].listing == l && IsClock(moves[n].trigger) && Try(Run(tb, moves[..n]), moves[n]).Ok? then 1 else 0
  }

  lemma BudgetMoved(e: Ent, t: Trigger, now: int, p: Params)
    requires LapseTrigger(t) && Moved(e, t, now, p).Ok?
    ensures Budget(Moved(e, t, now, p).value.status) + (if IsClock(t) then 1 else 0) <= Budget(e.status)
  {
  }

  lemma BudgetStep(tb: Tables, m: Move)
    requires LapseTrigger(m.trigger)
    ensures BudgetOf(Step(tb, m), m.listing)
            + (if IsClock(m.trigger) && Try(tb, m).Ok? then 1 else 0) <= BudgetOf(tb, m.listing)
  {
    if Try(tb, m).Ok? {
      var row, e := StepRow(tb, m);
      hide Applied, Written, Moved;
      BudgetMoved(row, m.trigger, m.now, m.params);
    }
  }

  /** With no payment, at most three clock moves remain from trialing, two from
      active or past_due, one from grace, canceled or comped, none from expired. */
  lemma {:induction false} ClockMovesBounded(tb: Tables, moves: seq<Move>, l: nat)
    requires forall i :: 0 <= i < |moves| && moves[i].listing == l ==> LapseTrigger(moves[i].trigger)
    ensures ClockMoves(tb, moves, l) + BudgetOf(Run(tb, moves), l) <= BudgetOf(tb, l)
  {
    if moves != [] {
      var n := |moves| - 1;
      ClockMovesBounded(tb, moves[..n], l);
      if moves[n].listing == l {
        BudgetStep(Run(tb, moves[..n]), moves[n]);
      } else {
        StepFrame(Run(tb, moves[..n]), moves[n], l);
      }
    }
  }
}
